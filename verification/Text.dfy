// Text operations the repository takes from juce::String and juce::StringArray.
//
// Characters are code points. Case folding and white space are the ASCII ones.

module Text {

  datatype Option<+T> = None | Some(value: T)

  // ----- Characters -----

  predicate IsSpace(c: char) { c == ' ' || '\t' <= c <= '\r' }

  predicate IsDigit(c: char) { '0' <= c <= '9' }

  predicate IsLineBreak(c: char) { c == '\r' || c == '\n' }

  function LowerChar(c: char): char {
    if 'A' <= c <= 'Z' then c - 'A' + 'a' else c
  }

  function Lower(s: string): string {
    seq(|s|, i requires 0 <= i < |s| => LowerChar(s[i]))
  }

  predicate EqualsIgnoreCase(a: string, b: string) { Lower(a) == Lower(b) }

  predicate Has(s: string, c: char) { exists i :: 0 <= i < |s| && s[i] == c }

  predicate AllDigits(s: string) { forall i :: 0 <= i < |s| ==> IsDigit(s[i]) }

  predicate OneLine(s: string) { forall i :: 0 <= i < |s| ==> !IsLineBreak(s[i]) }

  // ----- Trimming -----

  function TrimStart(s: string): (r: string)
    ensures |r| <= |s| && r == s[|s| - |r|..]
    ensures r == "" || !IsSpace(r[0])
  {
    if s != "" && IsSpace(s[0]) then TrimStart(s[1..]) else s
  }

  function TrimEnd(s: string): (r: string)
    ensures |r| <= |s| && r == s[..|r|]
    ensures r == "" || !IsSpace(r[|r| - 1])
  {
    if s != "" && IsSpace(s[|s| - 1]) then TrimEnd(s[..|s| - 1]) else s
  }

  function Trim(s: string): (r: string)
    ensures Trimmed(r)
  {
    var r := TrimEnd(TrimStart(s));
    r
  }

  lemma TrimCharacters(s: string, c: char)
    ensures OneLine(s) ==> OneLine(Trim(s))
    ensures Has(Trim(s), c) ==> Has(s, c)
  {
    var t := TrimStart(s);
    var r := TrimEnd(t);
    hide TrimStart, TrimEnd;
    assert forall i :: 0 <= i < |r| ==> r[i] == t[i] && t[i] == s[|s| - |t| + i];
  }

  predicate Trimmed(s: string) { s == "" || (!IsSpace(s[0]) && !IsSpace(s[|s| - 1])) }

  // ----- Searching and splitting -----

  // The index of the first c, or |s|.
  function IndexOf(s: string, c: char): (i: nat)
    ensures i <= |s|
    ensures forall j :: 0 <= j < i ==> s[j] != c
    ensures i < |s| ==> s[i] == c
    ensures i == |s| <==> !Has(s, c)
  {
    if s == "" then 0
    else if s[0] == c then assert Has(s, c); 0
    else
      var i := 1 + IndexOf(s[1..], c);
      assert Has(s[1..], c) ==> Has(s, c);
      assert Has(s, c) ==> Has(s[1..], c) by {
        if Has(s, c) {
          var j :| 0 <= j < |s| && s[j] == c;
          assert s[1..][j - 1] == c;
        }
      }
      i
  }

  // juce::StringArray::fromTokens with one break character and no quotes.
  function Split(s: string, c: char): (r: seq<string>)
    ensures forall i :: 0 <= i < |r| ==> !Has(r[i], c)
  {
    if s == "" then []
    else
      var i := IndexOf(s, c);
      if i == |s| then [s]
      else if i + 1 == |s| then assert !Has(s[..i], c); [s[..i], ""]
      else assert !Has(s[..i], c); [s[..i]] + Split(s[i + 1..], c)
  }

  function Join(parts: seq<string>, separator: string): string {
    if parts == [] then ""
    else if |parts| == 1 then parts[0]
    else parts[0] + separator + Join(parts[1..], separator)
  }

  lemma IndexOfFirst(a: string, c: char, b: string)
    requires !Has(a, c)
    ensures IndexOf(a + [c] + b, c) == |a|
  {
    var s := a + [c] + b;
    assert s[|a|] == c;
    assert forall j :: 0 <= j < |a| ==> s[j] == a[j];
  }

  lemma {:induction false} SplitJoin(parts: seq<string>, c: char)
    requires parts != [] && forall i :: 0 <= i < |parts| ==> parts[i] != "" && !Has(parts[i], c)
    ensures Join(parts, [c]) != "" && Split(Join(parts, [c]), c) == parts
  {
    var s := Join(parts, [c]);
    if |parts| == 1 {
      assert parts == [parts[0]];
    } else {
      var rest := Join(parts[1..], [c]);
      SplitJoin(parts[1..], c);
      assert s == parts[0] + [c] + rest;
      IndexOfFirst(parts[0], c, rest);
      assert s[..|parts[0]|] == parts[0];
      assert s[|parts[0]| + 1..] == rest;
    }
  }

  // juce::StringArray::fromLines: "\r\n", "\r" and "\n" each end a line, and
  // what follows the last one is a line too.
  function LinesOf(s: string): (lines: seq<string>)
    ensures forall i :: 0 <= i < |lines| ==> OneLine(lines[i])
  {
    if s == "" then [] else LinesFrom(s)
  }

  function LinesFrom(s: string): (lines: seq<string>)
    ensures forall i :: 0 <= i < |lines| ==> OneLine(lines[i])
    decreases |s|
  {
    var i := LineEnd(s);
    if i == |s| then [s]
    else
      var next := if s[i] == '\r' && i + 1 < |s| && s[i + 1] == '\n' then i + 2 else i + 1;
      [s[..i]] + LinesFrom(s[next..])
  }

  function LineEnd(s: string): (i: nat)
    ensures i <= |s| && OneLine(s[..i])
    ensures i < |s| ==> IsLineBreak(s[i])
  {
    if s == "" || IsLineBreak(s[0]) then 0
    else
      var i := 1 + LineEnd(s[1..]);
      assert forall j :: 1 <= j < i ==> s[j] == s[1..][..i - 1][j - 1];
      i
  }

  const CRLF: string := "\r\n"

  // Every line followed by CRLF.
  function CrlfText(lines: seq<string>): string {
    if lines == [] then "" else lines[0] + CRLF + CrlfText(lines[1..])
  }

  lemma LineEndAt(line: string, rest: string)
    requires OneLine(line)
    ensures LineEnd(line + CRLF + rest) == |line|
  {
    var s := line + CRLF + rest;
    var i := LineEnd(s);
    assert forall j :: 0 <= j < |line| ==> s[j] == line[j];
    assert s[|line|] == '\r';
    assert forall j :: 0 <= j < i ==> s[..i][j] == s[j];
  }

  lemma {:induction false} LinesOfCrlfText(lines: seq<string>)
    requires forall i :: 0 <= i < |lines| ==> OneLine(lines[i])
    ensures LinesFrom(CrlfText(lines)) == lines + [""]
  {
    if lines == [] {
    } else {
      hide LinesFrom, CrlfText;
      LinesOfCrlfText(lines[1..]);
      LinesOfNext(lines);
    }
  }

  lemma LinesOfNext(lines: seq<string>)
    requires lines != [] && OneLine(lines[0])
    requires LinesFrom(CrlfText(lines[1..])) == lines[1..] + [""]
    ensures LinesFrom(CrlfText(lines)) == lines + [""]
  {
    hide LinesFrom;
    FirstLine(lines[0], CrlfText(lines[1..]));
    assert lines + [""] == [lines[0]] + (lines[1..] + [""]);
  }

  lemma FirstLine(line: string, rest: string)
    requires OneLine(line)
    ensures LinesFrom(line + CRLF + rest) == [line] + LinesFrom(rest)
  {
    var s := line + CRLF + rest;
    LineEndAt(line, rest);
    hide LineEnd;
    assert s[|line|] == '\r' && s[|line| + 1] == '\n';
    assert s[..|line|] == line && s[|line| + 2..] == rest;
  }

  lemma {:induction false} CrlfTextConcat(a: seq<string>, b: seq<string>)
    ensures CrlfText(a + b) == CrlfText(a) + CrlfText(b)
  {
    if a == [] {
      assert a + b == b;
    } else {
      assert (a + b)[1..] == a[1..] + b;
      CrlfTextConcat(a[1..], b);
    }
  }

  // ----- Decimal numbers -----

  function Digit(d: nat): char
    requires d < 10
  {
    '0' + d as char
  }

  function Decimal(n: nat): (s: string)
    ensures s != "" && AllDigits(s)
  {
    if n < 10 then [Digit(n)] else Decimal(n / 10) + [Digit(n % 10)]
  }

  function DigitsValue(s: string): nat
    requires AllDigits(s)
  {
    if s == "" then 0
    else 10 * DigitsValue(s[..|s| - 1]) + (s[|s| - 1] - '0') as nat
  }

  lemma {:induction false} DecimalValue(n: nat)
    ensures DigitsValue(Decimal(n)) == n
  {
    if n >= 10 {
      var s := Decimal(n);
      assert s[..|s| - 1] == Decimal(n / 10);
      DecimalValue(n / 10);
    }
  }

  lemma DecimalInjective(m: nat, n: nat)
    requires Decimal(m) == Decimal(n)
    ensures m == n
  {
    DecimalValue(m);
    DecimalValue(n);
  }

  function Pow10(k: nat): nat { if k == 0 then 1 else 10 * Pow10(k - 1) }

  lemma {:induction false} DecimalLength(n: nat, k: nat)
    requires k > 0 && n < Pow10(k)
    ensures |Decimal(n)| <= k
  {
    if n >= 10 {
      assert k > 1;
      DecimalLength(n / 10, k - 1);
    }
  }

  lemma DecimalPlain(n: nat)
    ensures Trimmed(Decimal(n)) && OneLine(Decimal(n))
    ensures forall c :: !IsDigit(c) ==> !Has(Decimal(n), c)
  {
  }

  // The number of leading digits.
  function LeadingDigits(s: string): (n: nat)
    ensures n <= |s| && AllDigits(s[..n])
    ensures n < |s| ==> !IsDigit(s[n])
  {
    if s == "" || !IsDigit(s[0]) then 0
    else
      var n := 1 + LeadingDigits(s[1..]);
      assert forall j :: 1 <= j < n ==> s[j] == s[1..][..n - 1][j - 1];
      n
  }

  // juce::String::getIntValue / getLargeIntValue (atoi): white space, a sign,
  // then digits. Numbers outside the C type are not part of this model.
  function IntValue(text: string): int {
    var s := TrimStart(text);
    var negative := s != "" && s[0] == '-';
    var t := if s != "" && (s[0] == '-' || s[0] == '+') then s[1..] else s;
    var v: int := DigitsValue(t[..LeadingDigits(t)]);
    if negative then -v else v
  }

  lemma IntValueDecimal(n: nat)
    ensures IntValue(Decimal(n)) == n
  {
    var s := Decimal(n);
    assert TrimStart(s) == s;
    assert s[..LeadingDigits(s)] == s;
    DecimalValue(n);
  }

  // A string that needs no trimming is left alone.
  lemma TrimTrimmed(s: string)
    requires Trimmed(s)
    ensures Trim(s) == s
  {
  }
}
