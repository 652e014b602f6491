/** The recursion detector of `analyzeCode`: the name of the first
    definition-shaped match, and how often that name is followed by an
    opening parenthesis anywhere in the text. */
module Recursion {
  import opened Wrappers
  import opened Text

  /** The end of the run of `\w` characters that starts at `i`. */
  function WordEnd(s: string, i: nat): (e: nat)
    requires i <= |s|
    ensures i <= e <= |s|
    decreases |s| - i
  {
    if i < |s| && IsWordChar(s[i]) then WordEnd(s, i + 1) else i
  }

  /** The run found by `WordEnd` is all word characters and cannot be
      extended. */
  lemma {:induction false} WordEndIsRunEnd(s: string, i: nat)
    requires i <= |s|
    ensures forall k :: i <= k < WordEnd(s, i) ==> IsWordChar(s[k])
    ensures WordEnd(s, i) == |s| || !IsWordChar(s[WordEnd(s, i)])
    decreases |s| - i
  {
    if i < |s| && IsWordChar(s[i]) {
      WordEndIsRunEnd(s, i + 1);
    }
  }

  /** The end of the run of `\s` characters that starts at `i`. */
  function SpacesEnd(s: string, i: nat): (e: nat)
    requires i <= |s|
    ensures i <= e <= |s|
    decreases |s| - i
  {
    if i < |s| && IsSpace(s[i]) then SpacesEnd(s, i + 1) else i
  }

  /** The run found by `SpacesEnd` is all white space and cannot be
      extended. */
  lemma {:induction false} SpacesEndIsRunEnd(s: string, i: nat)
    requires i <= |s|
    ensures forall k :: i <= k < SpacesEnd(s, i) ==> IsSpace(s[k])
    ensures SpacesEnd(s, i) == |s| || !IsSpace(s[SpacesEnd(s, i)])
    decreases |s| - i
  {
    if i < |s| && IsSpace(s[i]) {
      SpacesEndIsRunEnd(s, i + 1);
    }
  }

  /** The first position at or after `i` that holds `c`, or `|s|` if none. */
  function IndexOf(s: string, c: char, i: nat): (k: nat)
    requires i <= |s|
    ensures i <= k <= |s|
    ensures k == |s| || s[k] == c
    decreases |s| - i
  {
    if i < |s| && s[i] != c then IndexOf(s, c, i + 1) else i
  }

  /** No earlier position holds `c`. */
  lemma {:induction false} IndexOfIsFirst(s: string, c: char, i: nat)
    requires i <= |s|
    ensures forall j :: i <= j < IndexOf(s, c, i) ==> s[j] != c
    decreases |s| - i
  {
    if i < |s| && s[i] != c {
      IndexOfIsFirst(s, c, i + 1);
    }
  }

  /** Whether `(\w+)\s*\([^)]*\)\s*{([\s\S]*)}` matches starting at `i`.
      The `\w+` has to take the whole run of word characters (a shorter run
      is followed by a word character, which is neither `\s` nor `(`), the
      `[^)]*` stops at the first `)`, and the greedy body only needs some `}`
      after the `{`. */
  predicate DefinitionAt(code: string, i: nat) {
    && i < |code| && IsWordChar(code[i])
    && var open := SpacesEnd(code, WordEnd(code, i));
       && open < |code| && code[open] == '('
       && var close := IndexOf(code, ')', open + 1);
          && close < |code|
          && var brace := SpacesEnd(code, close + 1);
             && brace < |code| && code[brace] == '{'
             && '}' in code[brace + 1..]
  }

  /** The first position at or after `from` where a definition matches: the
      regular-expression engine tries start positions left to right. */
  function FindDefinition(code: string, from: nat): (r: Option<nat>)
    requires from <= |code|
    ensures r.Some? ==> from <= r.value < |code| && DefinitionAt(code, r.value)
    decreases |code| - from
  {
    if from == |code| then None
    else if DefinitionAt(code, from) then Some(from)
    else FindDefinition(code, from + 1)
  }

  /** No position before the one found matches, and when none is found no
      position matches at all. */
  lemma {:induction false} FindDefinitionIsLeftmost(code: string, from: nat)
    requires from <= |code|
    ensures var r := FindDefinition(code, from);
            forall j :: from <= j < (if r.Some? then r.value else |code|) ==> !DefinitionAt(code, j)
    decreases |code| - from
  {
    if from < |code| && !DefinitionAt(code, from) {
      FindDefinitionIsLeftmost(code, from + 1);
    }
  }

  /** Where `code.match(...)` finds the first definition, if anywhere. */
  function FirstDefinition(code: string): Option<nat> {
    FindDefinition(code, 0)
  }

  /** The captured name `funcMatch[1]` of a definition matched at `i`. */
  function NameAt(code: string, i: nat): string
    requires i <= |code|
  {
    code[i..WordEnd(code, i)]
  }

  /** A name made of one or more `\w` characters, as `(\w+)` captures. */
  predicate IsWord(name: string) {
    |name| >= 1 && forall k :: 0 <= k < |name| ==> IsWordChar(name[k])
  }

  /** A definition preceded by a word character also matches one position
      earlier: the name run is the same. */
  lemma DefinitionExtendsLeft(code: string, i: nat)
    requires 0 < i <= |code|
    ensures DefinitionAt(code, i) && IsWordChar(code[i - 1]) ==> DefinitionAt(code, i - 1)
  {
    if IsWordChar(code[i - 1]) {
      assert WordEnd(code, i - 1) == WordEnd(code, i);
    }
  }

  /** The first definition starts a whole word: had a word character come
      just before it, the match would have started one position earlier. The
      captured name is therefore a whole word of the text. */
  lemma FirstDefinitionIsWholeWord(code: string)
    requires FirstDefinition(code).Some?
    ensures var i := FirstDefinition(code).value;
            (i == 0 || !IsWordChar(code[i - 1])) && IsWord(NameAt(code, i))
  {
    var i := FirstDefinition(code).value;
    WordEndIsRunEnd(code, i);
    FindDefinitionIsLeftmost(code, 0);
    if i > 0 {
      DefinitionExtendsLeft(code, i);
    }
    var name := NameAt(code, i);
    forall k | 0 <= k < |name| ensures IsWordChar(name[k]) {
      assert name[k] == code[i + k];
    }
  }

  /** Whether `name\s*\(` matches starting at `i`. */
  predicate CallAt(code: string, name: string, i: nat) {
    && i + |name| <= |code| && code[i..i + |name|] == name
    && var open := SpacesEnd(code, i + |name|);
       open < |code| && code[open] == '('
  }

  /** The positions where `name\s*\(` matches. */
  function CallPositions(code: string, name: string): set<nat> {
    set i: nat | i < |code| && CallAt(code, name, i)
  }

  /** The matches of `name\s*\(` at or after `from`. */
  function CountCallsFrom(code: string, name: string, from: nat): nat
    requires from <= |code|
    decreases |code| - from
  {
    if from == |code| then 0
    else (if CallAt(code, name, from) then 1 else 0) + CountCallsFrom(code, name, from + 1)
  }

  /** `(code.match(new RegExp(name + "\\s*\\(", "g")) || []).length`. */
  function CallCount(code: string, name: string): nat {
    CountCallsFrom(code, name, 0)
  }

  /** Two matches of `name\s*\(` never overlap when the name is a word: the
      second starts after the parenthesis that ends the first. So the global
      search, which resumes after each match, finds every matching position,
      and the count is the number of positions. */
  lemma CallsDoNotOverlap(code: string, name: string, i: nat, j: nat)
    requires IsWord(name)
    requires CallAt(code, name, i) && CallAt(code, name, j) && i < j
    ensures SpacesEnd(code, i + |name|) < j
  {
    var m := i + |name|;
    SpacesEndIsRunEnd(code, m);
    if j <= SpacesEnd(code, m) {
      // Position k lies both inside the second name and in the white space
      // or parenthesis that follows the first name.
      var k := if j <= m then m else j;
      WordCharInMatch(code, name, j, k);
      assert false;
    }
  }

  /** Every character of a matched word name is a word character. */
  lemma WordCharInMatch(code: string, name: string, j: nat, k: nat)
    requires IsWord(name) && j + |name| <= |code| && code[j..j + |name|] == name
    requires j <= k < j + |name|
    ensures IsWordChar(code[k])
  {
    assert code[k] == name[k - j];
  }

  /** The count is the number of matching positions. */
  lemma {:induction false} CountIsPositions(code: string, name: string, from: nat)
    requires from <= |code|
    ensures CountCallsFrom(code, name, from) == |set i: nat | from <= i < |code| && CallAt(code, name, i)|
    decreases |code| - from
  {
    var here := set i: nat | from <= i < |code| && CallAt(code, name, i);
    if from < |code| {
      CountIsPositions(code, name, from + 1);
      var later := set i: nat | from + 1 <= i < |code| && CallAt(code, name, i);
      if CallAt(code, name, from) {
        assert here == later + {from};
      } else {
        assert here == later;
      }
    } else {
      assert here == {};
    }
  }

  /** What the detector records when the first definition's name is called. */
  datatype RecursiveFunction = RecursiveFunction(name: string, calls: nat)

  /** Recursion detection: the first definition's name must occur at least
      twice followed by `(`; the count kept is the raw number of matches. */
  function DetectRecursion(code: string): (r: Option<RecursiveFunction>)
    ensures r.Some? ==> r.value.calls >= 2 && IsWord(r.value.name)
  {
    match FirstDefinition(code)
    case None => None
    case Some(i) =>
      var name := NameAt(code, i);
      var calls := CallCount(code, name);
      if calls >= 2 then
        FirstDefinitionIsWholeWord(code);
        Some(RecursiveFunction(name, calls))
      else None
  }

  /** No definition, no recursion. */
  lemma NoDefinitionNoRecursion(code: string)
    requires FirstDefinition(code).None?
    ensures DetectRecursion(code).None?
  {
  }

  /** The definition's own occurrence is one of the counted matches, so
      recursion is reported exactly when the name is followed by `(` at some
      other position too; and then the count is the number of matching
      positions, the definition included. */
  lemma RecursionMeansAnotherCall(code: string)
    requires FirstDefinition(code).Some?
    ensures var i := FirstDefinition(code).value;
            var name := NameAt(code, i);
            && i in CallPositions(code, name)
            && (DetectRecursion(code).Some? <==> exists j :: j in CallPositions(code, name) && j != i)
            && (DetectRecursion(code).Some? ==>
                  DetectRecursion(code).value == RecursiveFunction(name, |CallPositions(code, name)|))
  {
    var i := FirstDefinition(code).value;
    var name := NameAt(code, i);
    var positions := CallPositions(code, name);
    assert CallAt(code, name, i);
    assert i in positions;
    CountIsPositions(code, name, 0);
    assert positions == set j: nat | 0 <= j < |code| && CallAt(code, name, j);
    if exists j :: j in positions && j != i {
      var j :| j in positions && j != i;
      assert {i, j} <= positions;
      assert |{i, j}| == 2;
      SubsetCard({i, j}, positions);
    } else {
      assert positions == {i};
    }
  }

  /** A subset is no larger than its superset. */
  lemma SubsetCard(a: set<nat>, b: set<nat>)
    requires a <= b
    ensures |a| <= |b|
  {
    assert b == a + (b - a);
  }
}
