/** String helpers with the meaning Python gives them. */
module Text {

  /** Length of the longest prefix of `s` whose characters all satisfy `p`. */
  function PrefixWhile(p: char -> bool, s: string): (n: nat)
    ensures n <= |s|
    ensures forall j :: 0 <= j < n ==> p(s[j])
    ensures n < |s| ==> !p(s[n])
  {
    if s == [] || !p(s[0]) then 0 else 1 + PrefixWhile(p, s[1..])
  }

  /** `s.rfind(c)`: the last index holding `c`, or -1 when there is none. */
  function RFind(s: string, c: char): (i: int)
    ensures -1 <= i < |s|
    ensures i >= 0 ==> s[i] == c
    ensures forall j :: i < j < |s| ==> s[j] != c
  {
    if s == [] then -1
    else if s[|s| - 1] == c then |s| - 1
    else RFind(s[..|s| - 1], c)
  }

  function LowerChar(c: char): char {
    if 'A' <= c <= 'Z' then (c as int + 32) as char else c
  }

  function UpperChar(c: char): char {
    if 'a' <= c <= 'z' then (c as int - 32) as char else c
  }

  /** `s.lower()`, restricted to ASCII letters. */
  function Lower(s: string): string {
    if s == [] then [] else [LowerChar(s[0])] + Lower(s[1..])
  }

  /** `s.upper()`, restricted to ASCII letters. */
  function Upper(s: string): string {
    if s == [] then [] else [UpperChar(s[0])] + Upper(s[1..])
  }

  /** Lower-casing keeps the length and is idempotent. */
  lemma {:induction false} LowerIdempotent(s: string)
    ensures |Lower(s)| == |s|
    ensures Lower(Lower(s)) == Lower(s)
  {
    if s != [] {
      LowerIdempotent(s[1..]);
      assert Lower(s)[1..] == Lower(s[1..]);
    }
  }

  /** Text with no capital letter is its own lower-case form. */
  lemma {:induction false} LowerWithoutCapitals(s: string)
    requires forall j :: 0 <= j < |s| ==> !('A' <= s[j] <= 'Z')
    ensures Lower(s) == s
  {
    if s != [] {
      LowerWithoutCapitals(s[1..]);
    }
  }

  /** Upper-casing keeps the length and turns a lower-case letter into a
      capital. */
  lemma {:induction false} UpperCapitalises(s: string, i: nat)
    requires i < |s| && 'a' <= s[i] <= 'z'
    ensures |Upper(s)| == |s| && 'A' <= Upper(s)[i] <= 'Z'
  {
    if i == 0 {
      UpperLength(s);
    } else {
      UpperCapitalises(s[1..], i - 1);
    }
  }

  lemma {:induction false} UpperLength(s: string)
    ensures |Upper(s)| == |s|
  {
    if s != [] {
      UpperLength(s[1..]);
    }
  }

  /** Upper-casing first changes nothing once the text is lower-cased. */
  lemma {:induction false} LowerIgnoresUpper(s: string)
    ensures Lower(Upper(s)) == Lower(s)
  {
    if s != [] {
      LowerIgnoresUpper(s[1..]);
      assert Upper(s)[1..] == Upper(s[1..]);
    }
  }
}
