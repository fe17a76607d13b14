/** Line numbering of the reviewed file (code_review.py, `review_file`):
    the text is split with `str.splitlines`, each line gets the prefix
    "<i+1>: ", and the numbered lines are joined with "\n". */
module Lines {
  import opened Text
  import opened Failures

  /** The characters `str.splitlines` ends a line at: \n, \r, \v, \f,
      \x1c, \x1d, \x1e, \x85, U+2028 and U+2029 (and \r\n as one). */
  predicate IsLineBreak(c: char) {
    var n := c as int;
    n == 0x0A || n == 0x0D || n == 0x0B || n == 0x0C || n == 0x1C || n == 0x1D
    || n == 0x1E || n == 0x85 || n == 0x2028 || n == 0x2029
  }

  predicate NoBreaks(s: string) {
    forall j :: 0 <= j < |s| ==> !IsLineBreak(s[j])
  }

  /** Index of the first line break in `s`, or |s|. */
  function LineEnd(s: string): (i: nat)
    ensures i <= |s| && NoBreaks(s[..i])
    ensures i < |s| ==> IsLineBreak(s[i])
  {
    PrefixWhile(c => !IsLineBreak(c), s)
  }

  /** Where the line after the break at `i` begins: "\r\n" is one break. */
  function NextLineStart(s: string, i: nat): (k: nat)
    requires i < |s|
    ensures i < k <= |s|
  {
    if s[i] == '\r' && i + 1 < |s| && s[i + 1] == '\n' then i + 2 else i + 1
  }

  /** `s.splitlines()`: no line holds a break, the empty text has no lines,
      and a final terminator does not start an extra empty line. */
  function SplitLines(s: string): (lines: seq<string>)
    ensures forall k :: 0 <= k < |lines| ==> NoBreaks(lines[k])
    ensures lines == [] <==> s == []
    ensures |lines| <= |s|
    decreases |s|
  {
    if s == [] then []
    else
      var i := LineEnd(s);
      if i == |s| then [s]
      else [s[..i]] + SplitLines(s[NextLineStart(s, i)..])
  }

  /** `"\n".join(lines)` */
  function JoinLines(lines: seq<string>): string {
    if lines == [] then ""
    else if |lines| == 1 then lines[0]
    else lines[0] + "\n" + JoinLines(lines[1..])
  }

  lemma LineEndOfLine(a: string, rest: string)
    requires NoBreaks(a)
    requires rest == [] || IsLineBreak(rest[0])
    ensures LineEnd(a + rest) == |a|
  {
    var s := a + rest;
    var i := LineEnd(s);
    assert forall j :: 0 <= j < |a| ==> s[j] == a[j];
    assert rest != [] ==> s[|a|] == rest[0];
  }

  /** Splitting what was joined gives the lines back, provided no line holds
      a break and the last line is not empty (a final empty line would be
      read as a trailing terminator). */
  lemma {:induction false} SplitJoin(lines: seq<string>)
    requires forall k :: 0 <= k < |lines| ==> NoBreaks(lines[k])
    requires lines == [] || lines[|lines| - 1] != ""
    ensures SplitLines(JoinLines(lines)) == lines
  {
    if |lines| == 1 {
      LineEndOfLine(lines[0], "");
      assert lines[0] + "" == lines[0];
    } else if |lines| > 1 {
      var a, tail := lines[0], lines[1..];
      var rest := JoinLines(tail);
      var s := a + "\n" + rest;
      assert JoinLines(lines) == s;
      LineEndOfLine(a, "\n" + rest);
      assert a + ("\n" + rest) == s;
      assert s[..|a|] == a;
      assert NextLineStart(s, |a|) == |a| + 1;
      assert s[|a| + 1..] == rest;
      SplitJoin(tail);
      assert lines == [a] + tail;
    }
  }

  /** The text has no line break other than "\n". */
  predicate OnlyNewlines(s: string) {
    forall j :: 0 <= j < |s| && IsLineBreak(s[j]) ==> s[j] == '\n'
  }

  /** What a final "\n" leaves off when the lines are joined again. */
  function Terminator(s: string): string {
    if s != [] && s[|s| - 1] == '\n' then "\n" else ""
  }

  lemma JoinCons(a: string, tail: seq<string>)
    requires tail != []
    ensures JoinLines([a] + tail) == a + "\n" + JoinLines(tail)
  {
    assert ([a] + tail)[1..] == tail;
  }

  /** Splitting at a "\n" that ends the first line. */
  lemma SplitAtNewline(s: string, i: nat)
    requires i < |s| && i == LineEnd(s) && s[i] == '\n'
    ensures SplitLines(s) == [s[..i]] + SplitLines(s[i + 1..])
  {
  }

  /** Nothing is trimmed or dropped: for text whose only breaks are "\n",
      joining its lines gives the text back, less one final "\n". */
  lemma {:induction false} JoinSplit(s: string)
    requires OnlyNewlines(s)
    ensures JoinLines(SplitLines(s)) + Terminator(s) == s
    decreases |s|
  {
    if s != [] {
      var i := LineEnd(s);
      if i == |s| {
        assert s[..i] == s;
      } else {
        var rest := s[i + 1..];
        SplitAtNewline(s, i);
        if rest == [] {
          assert s == s[..i] + "\n";
        } else {
          assert OnlyNewlines(rest) by {
            forall j | 0 <= j < |rest| && IsLineBreak(rest[j]) ensures rest[j] == '\n' {
              assert rest[j] == s[i + 1 + j];
            }
          }
          JoinSplit(rest);
          JoinSplitStep(s, i, SplitLines(rest));
        }
      }
    }
  }

  lemma JoinSplitStep(s: string, i: nat, tail: seq<string>)
    requires i + 1 < |s| && s[i] == '\n' && tail != []
    requires JoinLines(tail) + Terminator(s[i + 1..]) == s[i + 1..]
    ensures JoinLines([s[..i]] + tail) + Terminator(s) == s
  {
    var rest := s[i + 1..];
    JoinCons(s[..i], tail);
    assert Terminator(rest) == Terminator(s);
    assert s == s[..i] + "\n" + rest;
  }


  /** The text with every line break written as "\n", "\r\n" counting as
      one break; defined character by character, independently of
      `SplitLines`. */
  function Normalize(s: string): (t: string)
    ensures OnlyNewlines(t) && |t| <= |s|
    decreases |s|
  {
    if s == [] then []
    else if s[0] == '\r' && 1 < |s| && s[1] == '\n' then "\n" + Normalize(s[2..])
    else if IsLineBreak(s[0]) then "\n" + Normalize(s[1..])
    else [s[0]] + Normalize(s[1..])
  }

  lemma {:induction false} NormalizeKeepsLine(a: string, rest: string)
    requires NoBreaks(a)
    ensures Normalize(a + rest) == a + Normalize(rest)
    decreases |a|
  {
    if a != [] {
      var s := a + rest;
      assert s[0] == a[0] && s[1..] == a[1..] + rest;
      NormalizeKeepsLine(a[1..], rest);
      assert a == [a[0]] + a[1..];
    } else {
      assert a + rest == rest;
    }
  }

  /** A break, "\r\n" included, becomes a single "\n". */
  lemma NormalizeAtBreak(s: string, i: nat)
    requires i < |s| && IsLineBreak(s[i])
    ensures Normalize(s[i..]) == "\n" + Normalize(s[NextLineStart(s, i)..])
  {
    var t := s[i..];
    assert t[0] == s[i];
    if s[i] == '\r' && i + 1 < |s| && s[i + 1] == '\n' {
      assert t[1] == s[i + 1] && t[2..] == s[i + 2..];
    } else {
      assert t[1..] == s[i + 1..];
    }
  }

  /** `splitlines` reads every break, "\r\n" as one, exactly as it reads
      "\n": the lines of the text are those of its normalised form. */
  lemma {:induction false} SplitNormalized(s: string)
    ensures SplitLines(Normalize(s)) == SplitLines(s)
    decreases |s|
  {
    if s != [] {
      var i := LineEnd(s);
      var a := s[..i];
      assert s == a + s[i..];
      NormalizeKeepsLine(a, s[i..]);
      if i == |s| {
        assert s[i..] == [];
        assert Normalize(s) == s;
      } else {
        var k := NextLineStart(s, i);
        var n := Normalize(s[k..]);
        NormalizeAtBreak(s, i);
        var t := Normalize(s);
        assert t == a + ("\n" + n);
        LineEndOfLine(a, "\n" + n);
        assert t[..i] == a && t[i] == '\n';
        SplitAtNewline(t, i);
        assert t[i + 1..] == n;
        SplitNormalized(s[k..]);
      }
    }
  }

  /** The lines of any text, whatever its breaks: joined with "\n" they give
      its normalised form back, less one final "\n". As no line holds a
      break, `SplitJoin` shows no other list of lines joins to that text. */
  lemma SplitLinesJoin(s: string)
    ensures JoinLines(SplitLines(s)) + Terminator(Normalize(s)) == Normalize(s)
  {
    SplitNormalized(s);
    JoinSplit(Normalize(s));
  }

  predicate IsDigit(c: char) { '0' <= c <= '9' }

  function DigitChar(d: nat): (c: char)
    requires d < 10
    ensures IsDigit(c)
  {
    (d + '0' as int) as char
  }

  /** `str(n)` for a natural number: its decimal digits. */
  function NatToString(n: nat): (s: string)
    ensures s != [] && forall j :: 0 <= j < |s| ==> IsDigit(s[j])
    ensures n > 0 ==> s[0] != '0'
    ensures n == 0 ==> s == "0"
  {
    if n < 10 then [DigitChar(n)] else NatToString(n / 10) + [DigitChar(n % 10)]
  }

  /** The number a string of decimal digits denotes. */
  function DecimalValue(s: string): int {
    if s == [] then 0 else 10 * DecimalValue(s[..|s| - 1]) + (s[|s| - 1] as int - '0' as int)
  }

  /** Reading a printed number gives the number back. */
  lemma {:induction false} DecimalRoundTrip(n: nat)
    ensures DecimalValue(NatToString(n)) == n
  {
    if n >= 10 {
      var s := NatToString(n);
      assert s[..|s| - 1] == NatToString(n / 10);
      DecimalRoundTrip(n / 10);
    }
  }

  /** One numbered line, `f"{n}: {line}"`. */
  function NumberLine(n: nat, line: string): string {
    NatToString(n) + ": " + line
  }

  /** The numbered lines of `enumerate(lines)` counted from `start`. */
  function NumberFrom(start: nat, lines: seq<string>): (numbered: seq<string>)
    ensures |numbered| == |lines|
    ensures forall k :: 0 <= k < |lines| ==> numbered[k] == NumberLine(start + k, lines[k])
    decreases |lines|
  {
    if lines == [] then [] else [NumberLine(start, lines[0])] + NumberFrom(start + 1, lines[1..])
  }

  /** The annotated code sent for review: the file's lines numbered from 1
      and joined with "\n". Only the empty file gives the empty text. */
  function AnnotateSource(content: string): (code: string)
    ensures code == "" <==> content == ""
  {
    var numbered := NumberFrom(1, SplitLines(content));
    assert numbered != [] ==> NatToString(1) <= numbered[0];
    JoinLines(numbered)
  }

  /** A numbered line read back: its number and its text. */
  datatype NumberedLine = NumberedLine(number: int, text: string)

  /** Reads "<digits>: <text>", or None when the line does not start so. */
  function ParseNumberedLine(line: string): Option<NumberedLine> {
    var d := PrefixWhile(IsDigit, line);
    if d == 0 || d + 2 > |line| || line[d..d + 2] != ": " then None
    else Some(NumberedLine(DecimalValue(line[..d]), line[d + 2..]))
  }

  lemma ParseNumberLine(n: nat, line: string)
    ensures ParseNumberedLine(NumberLine(n, line)) == Some(NumberedLine(n, line))
  {
    var digits := NatToString(n);
    var s := NumberLine(n, line);
    assert s == digits + (": " + line);
    var d := PrefixWhile(IsDigit, s);
    assert s[|digits|] == ':';
    assert forall j :: 0 <= j < |digits| ==> s[j] == digits[j];
    assert d == |digits|;
    assert s[..d] == digits;
    assert s[d..d + 2] == ": ";
    assert s[d + 2..] == line;
    DecimalRoundTrip(n);
  }

  /** Strips the numbers of lines expected to be numbered from `start` on;
      None when a line is not "<start + k>: ...". */
  function UnnumberFrom(start: nat, numbered: seq<string>): Option<seq<string>>
    decreases |numbered|
  {
    if numbered == [] then Some([])
    else match ParseNumberedLine(numbered[0])
      case None => None
      case Some(first) =>
        if first.number != start then None
        else match UnnumberFrom(start + 1, numbered[1..])
          case None => None
          case Some(rest) => Some([first.text] + rest)
  }

  /** Reads annotated code back into the file's lines. */
  function StripLineNumbers(code: string): Option<seq<string>> {
    UnnumberFrom(1, SplitLines(code))
  }

  lemma {:induction false} UnnumberNumbered(start: nat, lines: seq<string>)
    ensures UnnumberFrom(start, NumberFrom(start, lines)) == Some(lines)
    decreases |lines|
  {
    if lines != [] {
      var numbered := NumberFrom(start, lines);
      ParseNumberLine(start, lines[0]);
      assert numbered[1..] == NumberFrom(start + 1, lines[1..]);
      UnnumberNumbered(start + 1, lines[1..]);
      assert lines == [lines[0]] + lines[1..];
    }
  }

  /** A numbered line holds no break and is never empty. */
  lemma NumberedLineIsOneLine(n: nat, line: string)
    requires NoBreaks(line)
    ensures NumberLine(n, line) != "" && NoBreaks(NumberLine(n, line))
  {
    var digits := NatToString(n);
    var s := NumberLine(n, line);
    forall j | 0 <= j < |s| ensures !IsLineBreak(s[j]) {
      if j < |digits| {
        assert s[j] == digits[j];
      } else if j >= |digits| + 2 {
        assert s[j] == line[j - |digits| - 2];
      }
    }
  }

  /** Numbering is total and order-preserving: the annotated code has
      exactly one line per line of the file, and line k is "<k+1>: " before
      the file's line k, unchanged. */
  lemma AnnotatedLines(content: string)
    ensures SplitLines(AnnotateSource(content)) == NumberFrom(1, SplitLines(content))
    ensures |SplitLines(AnnotateSource(content))| == |SplitLines(content)|
  {
    var lines := SplitLines(content);
    var numbered := NumberFrom(1, lines);
    forall k | 0 <= k < |numbered| ensures NoBreaks(numbered[k]) && numbered[k] != "" {
      NumberedLineIsOneLine(1 + k, lines[k]);
    }
    SplitJoin(numbered);
  }

  /** Every line of the annotated code starts with a digit, so none of them
      can open or close a Markdown code fence. */
  lemma AnnotatedLinesStartWithDigit(content: string)
    ensures var annotated := SplitLines(AnnotateSource(content));
      forall k :: 0 <= k < |annotated| ==>
        annotated[k] != "" && IsDigit(annotated[k][0]) && annotated[k][0] != '`'
  {
    AnnotatedLines(content);
    var lines := SplitLines(content);
    forall k | 0 <= k < |lines|
      ensures NumberFrom(1, lines)[k] != "" && IsDigit(NumberFrom(1, lines)[k][0])
    {
      var digits := NatToString(1 + k);
      assert NumberFrom(1, lines)[k] == digits + ": " + lines[k];
      assert (digits + ": " + lines[k])[0] == digits[0];
    }
  }

  /** Round trip: stripping the "<k>: " prefixes off the annotated code gives
      back exactly the lines `splitlines` produced, blank lines included. */
  lemma AnnotateRoundTrip(content: string)
    ensures StripLineNumbers(AnnotateSource(content)) == Some(SplitLines(content))
  {
    AnnotatedLines(content);
    UnnumberNumbered(1, SplitLines(content));
  }
}
