/** The optional value the analyzer uses for "no match". */
module Wrappers {
  datatype Option<+T> = None | Some(value: T)
}

/** Characters and strings as the analyzer sees them: JavaScript's white space,
    `trim()`, `split("\n")`, `join("\n")` and the decimal rendering of a count
    inside a template literal. */
module Text {

  /** The characters that JavaScript's `trim()` removes and that the regular
      expression class `\s` matches: WhiteSpace (tab, vertical tab, form feed,
      space, no-break space, byte-order mark and the other space separators)
      and LineTerminator (line feed, carriage return, line and paragraph
      separator). */
  predicate IsSpace(c: char) {
    || c == '\t' || c == '\n' || c == '\U{000B}' || c == '\U{000C}' || c == '\r'
    || c == ' ' || c == '\U{00A0}' || c == '\U{1680}'
    || ('\U{2000}' <= c <= '\U{200A}')
    || c == '\U{2028}' || c == '\U{2029}' || c == '\U{202F}' || c == '\U{205F}'
    || c == '\U{3000}' || c == '\U{FEFF}'
  }

  /** A character of the regular-expression class `\w`. */
  predicate IsWordChar(c: char) {
    ('a' <= c <= 'z') || ('A' <= c <= 'Z') || ('0' <= c <= '9') || c == '_'
  }

  predicate AllSpace(s: string) {
    forall k :: 0 <= k < |s| ==> IsSpace(s[k])
  }

  predicate IsDigits(s: string) {
    forall k :: 0 <= k < |s| ==> '0' <= s[k] <= '9'
  }

  /** `s` with its leading white space removed. */
  function TrimStart(s: string): (r: string)
    ensures |r| <= |s|
    ensures r == [] || !IsSpace(r[0])
  {
    if s != [] && IsSpace(s[0]) then TrimStart(s[1..]) else s
  }

  /** What `TrimStart` removes is a prefix of white space. */
  lemma {:induction false} TrimStartIsSuffix(s: string)
    ensures var r := TrimStart(s);
            r == s[|s| - |r|..] && AllSpace(s[..|s| - |r|])
  {
    if s != [] && IsSpace(s[0]) {
      TrimStartIsSuffix(s[1..]);
      var r := TrimStart(s);
      var n := |s| - |r|;
      assert s[1..][..n - 1] == s[1..n];
      assert forall k :: 1 <= k < n ==> s[..n][k] == s[1..n][k - 1];
    }
  }

  /** `s` with its trailing white space removed. */
  function TrimEnd(s: string): (r: string)
    ensures |r| <= |s|
    ensures r == [] || !IsSpace(r[|r| - 1])
  {
    if s != [] && IsSpace(s[|s| - 1]) then TrimEnd(s[..|s| - 1]) else s
  }

  /** What `TrimEnd` removes is a suffix of white space. */
  lemma {:induction false} TrimEndIsPrefix(s: string)
    ensures var r := TrimEnd(s);
            r == s[..|r|] && AllSpace(s[|r|..])
  {
    if s != [] && IsSpace(s[|s| - 1]) {
      var front := s[..|s| - 1];
      TrimEndIsPrefix(front);
      var r := TrimEnd(s);
      assert front[..|r|] == s[..|r|];
      assert front[|r|..] == s[|r|..|s| - 1];
      assert forall k :: 0 <= k < |s| - 1 - |r| ==> s[|r|..][k] == front[|r|..][k];
    }
  }

  /** JavaScript's `s.trim()`: what is left once white space is removed from
      both ends. */
  function Trim(s: string): (r: string)
    ensures |r| <= |s|
  {
    TrimEnd(TrimStart(s))
  }

  /** The trimmed text is a slice of the original that neither starts nor
      ends with white space, and everything before and after that slice is
      white space. */
  lemma TrimIsSlice(s: string)
    ensures var i := |s| - |TrimStart(s)|;
            var r := Trim(s);
            && i + |r| <= |s| && s[i..i + |r|] == r
            && AllSpace(s[..i]) && AllSpace(s[i + |r|..])
            && (r == [] || (!IsSpace(r[0]) && !IsSpace(r[|r| - 1])))
  {
    var t := TrimStart(s);
    var r := TrimEnd(t);
    var i := |s| - |t|;
    TrimStartIsSuffix(s);
    TrimEndIsPrefix(t);
    SliceOfSuffix(s, i, |r|);
    if r != [] {
      assert r[0] == t[0];
    }
  }

  /** Slicing a suffix is slicing the whole. */
  lemma SliceOfSuffix(s: string, i: nat, n: nat)
    requires i + n <= |s|
    ensures s[i..][..n] == s[i..i + n] && s[i..][n..] == s[i + n..]
  {
  }

  /** An input is blank (`!code.trim()` holds) exactly when every character of
      it is white space. */
  lemma BlankIffAllSpace(s: string)
    ensures Trim(s) == [] <==> AllSpace(s)
  {
    var t := TrimStart(s);
    TrimIsSlice(s);
    if Trim(s) == [] {
      TrimEndIsPrefix(t);
      assert t[0..] == t;
      assert t == [];
      assert s == s[..|s|];
    } else {
      var i := |s| - |t|;
      assert s[i] == Trim(s)[0];
    }
  }

  /** JavaScript's `s.split("\n")`: the pieces between line feeds, always at
      least one; a carriage return stays in its piece. */
  function Split(s: string): (r: seq<string>)
    ensures |r| >= 1
    ensures forall k :: 0 <= k < |r| ==> '\n' !in r[k]
  {
    if s == [] then [[]]
    else if s[0] == '\n' then [[]] + Split(s[1..])
    else
      var rest := Split(s[1..]);
      [[s[0]] + rest[0]] + rest[1..]
  }

  /** JavaScript's `parts.join(sep)`. */
  function Join(parts: seq<string>, sep: string): string {
    if |parts| == 0 then []
    else if |parts| == 1 then parts[0]
    else parts[0] + sep + Join(parts[1..], sep)
  }

  /** Joining the first line to the rest. */
  lemma JoinCons(head: string, tail: seq<string>, sep: string)
    requires |tail| >= 1
    ensures Join([head] + tail, sep) == head + sep + Join(tail, sep)
  {
    assert ([head] + tail)[1..] == tail;
  }

  /** The first part is a prefix of the joined text. */
  lemma JoinStartsWithFirst(parts: seq<string>, sep: string)
    requires |parts| >= 1
    ensures parts[0] <= Join(parts, sep)
  {
  }

  /** Splitting on line feeds loses nothing: joining the lines again gives
      back the text. */
  lemma {:induction false} JoinSplit(s: string)
    ensures Join(Split(s), "\n") == s
  {
    if s == [] {
    } else if s[0] == '\n' {
      JoinSplit(s[1..]);
      JoinCons([], Split(s[1..]), "\n");
    } else {
      var rest := Split(s[1..]);
      JoinSplit(s[1..]);
      if |rest| == 1 {
        assert [[s[0]] + rest[0]] + rest[1..] == [[s[0]] + rest[0]];
      } else {
        JoinCons([s[0]] + rest[0], rest[1..], "\n");
        JoinCons(rest[0], rest[1..], "\n");
        assert rest == [rest[0]] + rest[1..];
      }
    }
  }

  /** Conversely, lines that hold no line feed come back unchanged from
      joining and splitting. */
  lemma {:induction false} SplitJoin(lines: seq<string>)
    requires |lines| >= 1
    requires forall k :: 0 <= k < |lines| ==> '\n' !in lines[k]
    ensures Split(Join(lines, "\n")) == lines
    decreases |lines|, |lines[0]|
  {
    var head := lines[0];
    if head == [] {
      if |lines| == 1 {
      } else {
        JoinCons(head, lines[1..], "\n");
        assert Join(lines, "\n") == "\n" + Join(lines[1..], "\n");
        SplitJoin(lines[1..]);
        assert ("\n" + Join(lines[1..], "\n"))[1..] == Join(lines[1..], "\n");
        assert lines == [[]] + lines[1..];
      }
    } else {
      var shorter := [head[1..]] + lines[1..];
      assert '\n' !in head[1..] by {
        forall k | 0 <= k < |head[1..]| ensures head[1..][k] != '\n' {
          assert head[1..][k] == head[k + 1];
        }
      }
      forall k | 0 <= k < |shorter| ensures '\n' !in shorter[k] {
        if k > 0 { assert shorter[k] == lines[k]; }
      }
      SplitJoin(shorter);
      var text := Join(lines, "\n");
      JoinFirstChar(lines, "\n");
      assert text[0] == head[0] && text[0] != '\n';
      assert text[1..] == Join(shorter, "\n");
      var rest := Split(text[1..]);
      assert rest == shorter;
      assert [head[0]] + rest[0] == head;
      assert rest[1..] == lines[1..];
      assert lines == [head] + lines[1..];
    }
  }

  /** Taking the first character off the first part. */
  lemma JoinFirstChar(parts: seq<string>, sep: string)
    requires |parts| >= 1 && |parts[0]| >= 1
    ensures Join(parts, sep) == [parts[0][0]] + Join([parts[0][1..]] + parts[1..], sep)
  {
    var head := parts[0];
    var shorter := [head[1..]] + parts[1..];
    assert head == [head[0]] + head[1..];
    if |parts| == 1 {
      assert shorter == [head[1..]];
    } else {
      JoinCons(head[1..], parts[1..], sep);
      assert shorter[1..] == parts[1..];
    }
  }

  /** The digit character for a value below ten. */
  function Digit(d: nat): (c: char)
    requires d < 10
    ensures '0' <= c <= '9' && c as int - '0' as int == d
  {
    ('0' as int + d) as char
  }

  /** How a template literal renders a non-negative integer: its decimal
      digits, most significant first. */
  function Decimal(n: nat): (r: string)
    ensures |r| >= 1 && IsDigits(r)
    ensures r[0] == '0' ==> n == 0
  {
    if n < 10 then [Digit(n)] else Decimal(n / 10) + [Digit(n % 10)]
  }

  /** The number a string of decimal digits denotes. */
  function DigitsValue(s: string): nat
    requires IsDigits(s)
  {
    if s == [] then 0
    else DigitsValue(s[..|s| - 1]) * 10 + (s[|s| - 1] as int - '0' as int)
  }

  /** Reading back the rendered digits gives the number: the rendering loses
      no information. */
  lemma {:induction false} DecimalRoundTrip(n: nat)
    ensures DigitsValue(Decimal(n)) == n
  {
    if n >= 10 {
      DecimalRoundTrip(n / 10);
      var r := Decimal(n);
      assert r[..|r| - 1] == Decimal(n / 10);
    }
  }

  /** Two counts render to the same text only when they are equal. */
  lemma DecimalInjective(m: nat, n: nat)
    requires Decimal(m) == Decimal(n)
    ensures m == n
  {
    DecimalRoundTrip(m);
    DecimalRoundTrip(n);
  }
}
