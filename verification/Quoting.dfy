// Command-line quoting (src/platform/windows/Elevation.cpp) against the
// documented CommandLineToArgvW rules for every argument but the program name.

module Quoting {
  import opened Text

  const BACKSLASH: char := '\\'
  const QUOTE: char := '"'

  function Repeat(c: char, n: nat): (r: string)
    ensures |r| == n && forall i :: 0 <= i < n ==> r[i] == c
  {
    seq(n, _ => c)
  }

  // ----- quoteArgument -----

  predicate NeedsQuotes(argument: string) {
    argument == "" || exists i :: 0 <= i < |argument| && argument[i] in " \t\"\n"
  }

  // What is still to be written, closing quote included, after `pending`
  // backslashes were seen and not yet written.
  function QuoteFrom(a: string, pending: nat): string {
    if a == "" then Repeat(BACKSLASH, pending * 2) + [QUOTE]
    else if a[0] == BACKSLASH then QuoteFrom(a[1..], pending + 1)
    else if a[0] == QUOTE then Repeat(BACKSLASH, pending * 2 + 1) + [QUOTE] + QuoteFrom(a[1..], 0)
    else Repeat(BACKSLASH, pending) + [a[0]] + QuoteFrom(a[1..], 0)
  }

  function Quote(argument: string): string {
    if NeedsQuotes(argument) then [QUOTE] + QuoteFrom(argument, 0) else argument
  }

  method QuoteArgument(argument: string) returns (quoted: string)
    ensures quoted == Quote(argument)
  {
    if !NeedsQuotes(argument) {
      return argument;
    }
    quoted := [QUOTE];
    var backslashes := 0;
    for i := 0 to |argument|
      invariant quoted + QuoteFrom(argument[i..], backslashes) == [QUOTE] + QuoteFrom(argument, 0)
    {
      var c := argument[i];
      assert argument[i..][1..] == argument[i + 1..];
      if c == BACKSLASH {
        backslashes := backslashes + 1;
        continue;
      }
      if c == QUOTE {
        quoted := quoted + (Repeat(BACKSLASH, backslashes * 2 + 1) + [QUOTE]);
      } else {
        quoted := quoted + (Repeat(BACKSLASH, backslashes) + [c]);
      }
      backslashes := 0;
    }
    quoted := quoted + (Repeat(BACKSLASH, backslashes * 2) + [QUOTE]);
  }

  function QuoteAll(arguments: seq<string>): (quoted: seq<string>)
    ensures |quoted| == |arguments|
  {
    if arguments == [] then [] else [Quote(arguments[0])] + QuoteAll(arguments[1..])
  }

  // The parameter string launchElevated builds: read back by the documented
  // rules, it is the argument list again.
  method Parameters(arguments: seq<string>) returns (parameters: string)
    ensures parameters == Join(QuoteAll(arguments), " ")
    ensures ParseArguments(parameters) == arguments
  {
    var quoted: seq<string> := [];
    for i := 0 to |arguments|
      invariant quoted + QuoteAll(arguments[i..]) == QuoteAll(arguments)
    {
      assert arguments[i..][1..] == arguments[i + 1..];
      var q := QuoteArgument(arguments[i]);
      quoted := quoted + [q];
    }
    assert quoted == QuoteAll(arguments);
    parameters := Join(quoted, " ");
    ParseQuoted(arguments);
  }

  // ----- CommandLineToArgvW -----

  predicate IsBlank(c: char) { c == ' ' || c == '\t' }

  function LeadingBackslashes(s: string): (n: nat)
    ensures n <= |s| && forall i :: 0 <= i < n ==> s[i] == BACKSLASH
    ensures n < |s| ==> s[n] != BACKSLASH
  {
    if s == "" || s[0] != BACKSLASH then 0 else 1 + LeadingBackslashes(s[1..])
  }

  // The rest of the argument at the head of s, and what follows it.
  // 2n backslashes and a quote: n backslashes, and quoting starts or ends;
  // 2n+1 backslashes and a quote: n backslashes and a literal quote;
  // other backslashes are literal; a blank outside quotes ends the argument.
  function TakeArgument(s: string, inQuotes: bool): (r: (string, string))
    ensures |r.1| <= |s|
    ensures s != "" && !IsBlank(s[0]) ==> |r.1| < |s|
    decreases |s|
  {
    if s == "" then ("", "")
    else
      var n := LeadingBackslashes(s);
      if n < |s| && s[n] == QUOTE then
        var (text, rest) := TakeArgument(s[n + 1..], if n % 2 == 0 then !inQuotes else inQuotes);
        (Repeat(BACKSLASH, n / 2) + (if n % 2 == 0 then "" else [QUOTE]) + text, rest)
      else if n > 0 then
        var (text, rest) := TakeArgument(s[n..], inQuotes);
        (Repeat(BACKSLASH, n) + text, rest)
      else if IsBlank(s[0]) && !inQuotes then ("", s)
      else
        var (text, rest) := TakeArgument(s[1..], inQuotes);
        ([s[0]] + text, rest)
  }

  function ParseArguments(s: string): seq<string>
    decreases |s|
  {
    if s == "" then []
    else if IsBlank(s[0]) then ParseArguments(s[1..])
    else
      var (argument, rest) := TakeArgument(s, false);
      [argument] + ParseArguments(rest)
  }

  // ----- The round trip -----

  predicate EndsArgument(tail: string) { tail == "" || IsBlank(tail[0]) }

  lemma LeadingRun(n: nat, c: char, rest: string)
    requires c != BACKSLASH
    ensures LeadingBackslashes(Repeat(BACKSLASH, n) + [c] + rest) == n
  {
    var s := Repeat(BACKSLASH, n) + [c] + rest;
    assert s[n] == c;
    assert forall i :: 0 <= i < n ==> s[i] == BACKSLASH;
  }

  lemma TakeAtQuote(s: string, n: nat, inQuotes: bool, text: string, tail: string)
    requires n < |s| && LeadingBackslashes(s) == n && s[n] == QUOTE
    requires TakeArgument(s[n + 1..], if n % 2 == 0 then !inQuotes else inQuotes) == (text, tail)
    ensures TakeArgument(s, inQuotes) == (Repeat(BACKSLASH, n / 2) + (if n % 2 == 0 then "" else [QUOTE]) + text, tail)
  {
    hide LeadingBackslashes, Repeat;
  }

  // An even run of backslashes and a quote: half of them, and quoting toggles.
  lemma TakeToggle(k: nat, rest: string, inQuotes: bool, text: string, tail: string)
    requires TakeArgument(rest, !inQuotes) == (text, tail)
    ensures TakeArgument(Repeat(BACKSLASH, k * 2) + [QUOTE] + rest, inQuotes) == (Repeat(BACKSLASH, k) + text, tail)
  {
    hide LeadingBackslashes, TakeArgument;
    var s := Repeat(BACKSLASH, k * 2) + [QUOTE] + rest;
    LeadingRun(k * 2, QUOTE, rest);
    assert s[k * 2] == QUOTE && s[k * 2 + 1..] == rest;
    TakeAtQuote(s, k * 2, inQuotes, text, tail);
    assert Repeat(BACKSLASH, k) + "" == Repeat(BACKSLASH, k);
  }

  // An odd run and a quote: half of them and the quote itself.
  lemma TakeEscaped(k: nat, rest: string, inQuotes: bool, text: string, tail: string)
    requires TakeArgument(rest, inQuotes) == (text, tail)
    ensures TakeArgument(Repeat(BACKSLASH, k * 2 + 1) + [QUOTE] + rest, inQuotes)
            == (Repeat(BACKSLASH, k) + ([QUOTE] + text), tail)
  {
    hide LeadingBackslashes, TakeArgument;
    var n := k * 2 + 1;
    var s := Repeat(BACKSLASH, n) + [QUOTE] + rest;
    LeadingRun(n, QUOTE, rest);
    assert s[n] == QUOTE && s[n + 1..] == rest;
    TakeAtQuote(s, n, inQuotes, text, tail);
    assert n / 2 == k && n % 2 == 1;
    assert Repeat(BACKSLASH, k) + [QUOTE] + text == Repeat(BACKSLASH, k) + ([QUOTE] + text);
  }

  // An ordinary character is taken as it is, and so are backslashes before it.
  lemma TakeOrdinary(n: nat, c: char, rest: string, inQuotes: bool, text: string, tail: string)
    requires c != BACKSLASH && c != QUOTE && (IsBlank(c) ==> inQuotes)
    requires TakeArgument(rest, inQuotes) == (text, tail)
    ensures TakeArgument(Repeat(BACKSLASH, n) + [c] + rest, inQuotes) == (Repeat(BACKSLASH, n) + ([c] + text), tail)
  {
    var s := Repeat(BACKSLASH, n) + [c] + rest;
    var t := [c] + rest;
    LeadingRun(n, c, rest);
    assert s[n..] == t && t[1..] == rest;
    TakeOne(t, inQuotes, text, tail);
    if n == 0 {
      assert s == t;
      assert Repeat(BACKSLASH, 0) + ([c] + text) == [c] + text;
    } else {
      assert s[n] == c;
      hide LeadingBackslashes;
    }
  }

  lemma TakeOne(t: string, inQuotes: bool, text: string, tail: string)
    requires t != "" && t[0] != BACKSLASH && t[0] != QUOTE && (IsBlank(t[0]) ==> inQuotes)
    requires TakeArgument(t[1..], inQuotes) == (text, tail)
    ensures TakeArgument(t, inQuotes) == ([t[0]] + text, tail)
  {
    assert LeadingBackslashes(t) == 0;
    hide LeadingBackslashes;
  }

  lemma TakeEnd(tail: string)
    requires EndsArgument(tail)
    ensures TakeArgument(tail, false) == ("", tail)
  {
    assert tail != "" ==> LeadingBackslashes(tail) == 0;
  }

  lemma {:induction false} TakeQuoted(a: string, pending: nat, tail: string)
    requires EndsArgument(tail)
    ensures TakeArgument(QuoteFrom(a, pending) + tail, true) == (Repeat(BACKSLASH, pending) + a, tail)
  {
    QuoteFromStep(a, pending, tail);
    hide TakeArgument;
    if a == "" {
      TakeEnd(tail);
      TakeToggle(pending, tail, true, "", tail);
    } else if a[0] == BACKSLASH {
      TakeQuoted(a[1..], pending + 1, tail);
    } else {
      var rest := QuoteFrom(a[1..], 0) + tail;
      TakeQuoted(a[1..], 0, tail);
      if a[0] == QUOTE {
        TakeEscaped(pending, rest, true, a[1..], tail);
      } else {
        TakeOrdinary(pending, a[0], rest, true, a[1..], tail);
      }
    }
  }

  lemma SplitAtRun(a: string, n: nat, tail: string)
    requires n < |a| && forall i :: 0 <= i < n ==> a[i] == BACKSLASH
    ensures a == Repeat(BACKSLASH, n) + ([a[n]] + a[n + 1..])
    ensures a + tail == Repeat(BACKSLASH, n) + [a[n]] + (a[n + 1..] + tail)
  {
  }

  // The output before `tail`, one character further.
  lemma QuoteFromStep(a: string, pending: nat, tail: string)
    ensures a == "" ==> QuoteFrom(a, pending) + tail == Repeat(BACKSLASH, pending * 2) + [QUOTE] + tail
    ensures a != "" && a[0] == QUOTE ==>
              QuoteFrom(a, pending) + tail
              == Repeat(BACKSLASH, pending * 2 + 1) + [QUOTE] + (QuoteFrom(a[1..], 0) + tail)
    ensures a != "" && a[0] != QUOTE && a[0] != BACKSLASH ==>
              QuoteFrom(a, pending) + tail == Repeat(BACKSLASH, pending) + [a[0]] + (QuoteFrom(a[1..], 0) + tail)
    ensures a != "" && a[0] == BACKSLASH ==> Repeat(BACKSLASH, pending + 1) + a[1..] == Repeat(BACKSLASH, pending) + a
    ensures a != "" ==> Repeat(BACKSLASH, 0) + a[1..] == a[1..] && [a[0]] + a[1..] == a
  {
    if a != "" {
      var rest := QuoteFrom(a[1..], 0);
      if a[0] == QUOTE {
        Regroup(Repeat(BACKSLASH, pending * 2 + 1), [QUOTE], rest, tail);
      } else if a[0] != BACKSLASH {
        Regroup(Repeat(BACKSLASH, pending), [a[0]], rest, tail);
      } else {
        MoveBackslash(a, pending);
      }
      DropAndAdd(a);
    }
  }

  lemma Regroup(x: string, y: string, z: string, tail: string)
    ensures x + y + z + tail == x + y + (z + tail)
  {
  }

  lemma MoveBackslash(a: string, pending: nat)
    requires a != "" && a[0] == BACKSLASH
    ensures Repeat(BACKSLASH, pending + 1) + a[1..] == Repeat(BACKSLASH, pending) + a
  {
  }

  lemma DropAndAdd(a: string)
    requires a != ""
    ensures Repeat(BACKSLASH, 0) + a[1..] == a[1..] && [a[0]] + a[1..] == a
  {
  }

  lemma TakeBackslashes(a: string, tail: string)
    requires EndsArgument(tail) && LeadingBackslashes(a) == |a|
    ensures TakeArgument(a + tail, false) == (a, tail)
  {
    TakeEnd(tail);
    if a == "" {
      assert a + tail == tail;
    } else {
      assert LeadingBackslashes(a + tail) == |a| by {
        assert tail != "" ==> (a + tail)[|a|] == tail[0];
      }
      assert (a + tail)[|a|..] == tail;
      assert Repeat(BACKSLASH, |a|) + "" == a;
    }
  }

  // Without quotes in the argument its backslashes stay literal.
  lemma {:induction false} TakeUnquoted(a: string, tail: string)
    requires EndsArgument(tail)
    requires forall i :: 0 <= i < |a| ==> !IsBlank(a[i]) && a[i] != QUOTE
    ensures TakeArgument(a + tail, false) == (a, tail)
    decreases |a|
  {
    var n := LeadingBackslashes(a);
    assert a[..n] == Repeat(BACKSLASH, n);
    if n == |a| {
      TakeBackslashes(a, tail);
    } else {
      hide TakeArgument, LeadingBackslashes;
      var rest := a[n + 1..];
      SplitAtRun(a, n, tail);
      TakeUnquoted(rest, tail);
      TakeOrdinary(n, a[n], rest + tail, false, rest, tail);
    }
  }

  lemma TakeQuote(argument: string, tail: string)
    requires EndsArgument(tail)
    ensures Quote(argument) != "" && !IsBlank(Quote(argument)[0])
    ensures TakeArgument(Quote(argument) + tail, false) == (argument, tail)
  {
    hide TakeArgument;
    if NeedsQuotes(argument) {
      QuoteStart(argument, tail);
      TakeQuoted(argument, 0, tail);
      TakeToggle(0, QuoteFrom(argument, 0) + tail, false, argument, tail);
    } else {
      NoQuotesNeeded(argument);
      TakeUnquoted(argument, tail);
    }
  }

  lemma QuoteStart(argument: string, tail: string)
    requires NeedsQuotes(argument)
    ensures Quote(argument) + tail == Repeat(BACKSLASH, 0) + [QUOTE] + (QuoteFrom(argument, 0) + tail)
    ensures Repeat(BACKSLASH, 0) + argument == argument
  {
  }

  lemma NoQuotesNeeded(argument: string)
    requires !NeedsQuotes(argument)
    ensures forall i :: 0 <= i < |argument| ==> !IsBlank(argument[i]) && argument[i] != QUOTE
  {
    forall i | 0 <= i < |argument|
      ensures !IsBlank(argument[i]) && argument[i] != QUOTE
    {
      assert argument[i] !in " \t\"\n";
      assert " \t\"\n"[0] == ' ' && " \t\"\n"[1] == '\t' && " \t\"\n"[2] == QUOTE;
    }
  }

  // Every list of arguments comes back: empty ones, embedded quotes and runs
  // of backslashes included.
  lemma {:induction false} ParseQuoted(arguments: seq<string>)
    ensures ParseArguments(Join(QuoteAll(arguments), " ")) == arguments
  {
    hide Quote, TakeArgument;
    if arguments == [] {
    } else {
      var quoted := QuoteAll(arguments);
      assert quoted[1..] == QuoteAll(arguments[1..]);
      var tail := if |arguments| == 1 then "" else " " + Join(quoted[1..], " ");
      assert Join(quoted, " ") == Quote(arguments[0]) + tail;
      TakeQuote(arguments[0], tail);
      ParseNext(Quote(arguments[0]) + tail, arguments[0], tail);
      if |arguments| > 1 {
        ParseQuoted(arguments[1..]);
        assert tail[1..] == Join(quoted[1..], " ");
      }
      assert arguments == [arguments[0]] + arguments[1..];
    }
  }

  lemma ParseNext(s: string, argument: string, tail: string)
    requires s != "" && !IsBlank(s[0]) && EndsArgument(tail)
    requires TakeArgument(s, false) == (argument, tail)
    ensures ParseArguments(s) == [argument] + ParseArguments(if tail == "" then "" else tail[1..])
  {
    hide TakeArgument;
  }
}
