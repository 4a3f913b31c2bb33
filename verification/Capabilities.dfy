// What a device can stream, its persistent text and the verdict about a
// requested format (src/core/FormatCompatibility.cpp).

module Capabilities {
  import opened Text
  import opened AudioModel

  // `code` says why the capabilities are unknown. A rate is a key only when
  // it has at least one depth.
  datatype FormatCapabilities = FormatCapabilities(
    known: bool,
    code: ResultCode,
    depthsByRate: map<nat, seq<nat>>)
  {
    predicate SupportsRate(rate: nat) { rate in depthsByRate }

    predicate Supports(rate: nat, bits: nat) { rate in depthsByRate && bits in depthsByRate[rate] }
  }

  const UNKNOWN_CAPABILITIES := FormatCapabilities(false, RESULT_OK, map[])

  // ----- The verdict -----

  datatype Compatibility = Compatible | RateUnsupported | DepthUnsupported | UnknownCompatibility

  function JudgeCompatibility(caps: FormatCapabilities, rate: nat, bits: nat): (c: Compatibility)
    ensures c == Compatible ==> caps.Supports(rate, bits)
    ensures c == RateUnsupported || c == DepthUnsupported ==>
              !caps.Supports(rate, bits) && caps.known && caps.depthsByRate != map[]
  {
    if !caps.known || caps.depthsByRate == map[] then UnknownCompatibility
    else if !caps.SupportsRate(rate) then RateUnsupported
    else if caps.Supports(rate, bits) then Compatible
    else DepthUnsupported
  }

  predicate Incompatible(c: Compatibility) { c == RateUnsupported || c == DepthUnsupported }

  // ----- Ascending lists -----

  predicate Ascending(s: seq<nat>) { forall i, j :: 0 <= i < j < |s| ==> s[i] <= s[j] }

  function Insert(x: nat, s: seq<nat>): (r: seq<nat>)
    requires Ascending(s)
    ensures Ascending(r) && |r| == |s| + 1
    ensures multiset(r) == multiset(s) + multiset{x}
    ensures forall y :: y in r <==> y == x || y in s
  {
    if s == [] then [x]
    else if x <= s[0] then [x] + s
    else
      var r := Insert(x, s[1..]);
      assert s == [s[0]] + s[1..];
      assert s[0] <= r[0] by { assert r[0] in r; }
      [s[0]] + r
  }

  // std::sort.
  function Sort(s: seq<nat>): (r: seq<nat>)
    ensures Ascending(r) && |r| == |s|
    ensures multiset(r) == multiset(s)
    ensures forall y :: y in r <==> y in s
  {
    if s == [] then [] else assert s == [s[0]] + s[1..]; Insert(s[0], Sort(s[1..]))
  }

  lemma {:induction false} SortAscending(s: seq<nat>)
    requires Ascending(s)
    ensures Sort(s) == s
  {
    if s == [] {
    } else {
      SortAscending(s[1..]);
      assert s == [s[0]] + s[1..];
    }
  }

  lemma {:induction false} LeastExists(s: set<nat>)
    requires s != {}
    ensures exists m :: IsLeast(m, s)
  {
    var x :| x in s;
    var rest := s - {x};
    if rest == {} {
      assert s == {x};
      assert IsLeast(x, s);
    } else {
      LeastExists(rest);
      var m :| IsLeast(m, rest);
      assert s == rest + {x};
      assert IsLeast(if x < m then x else m, s);
    }
  }

  predicate IsLeast(m: nat, s: set<nat>) { m in s && forall x :: x in s ==> m <= x }

  function Least(s: set<nat>): (m: nat)
    requires s != {}
    ensures IsLeast(m, s)
  {
    LeastExists(s);
    var m :| IsLeast(m, s);
    m
  }

  // The keys of a std::map, in its order.
  function AscendingKeys(keys: set<nat>): (r: seq<nat>)
    ensures forall i :: 0 <= i < |r| ==> r[i] in keys
  {
    if keys == {} then []
    else
      hide Least;
      var m := Least(keys);
      [m] + AscendingKeys(keys - {m})
  }

  lemma {:induction false} AscendingKeysOf(keys: set<nat>)
    ensures var r := AscendingKeys(keys);
            && |r| == |keys|
            && (forall x :: x in keys ==> x in r)
            && (forall i, j :: 0 <= i < j < |r| ==> r[i] < r[j])
  {
    hide Least;
    if keys != {} {
      var m := Least(keys);
      AscendingKeysOf(keys - {m});
      var r := AscendingKeys(keys - {m});
      assert forall i :: 0 <= i < |r| ==> r[i] in keys - {m};
      assert forall x :: x in keys ==> x == m || x in keys - {m};
    }
  }

  // ----- The persistent text -----

  const MAX_RATE: nat := 0x1_0000_0000
  const MAX_DEPTH: nat := 0x1_0000

  // Known, asked without error, and every number in its C++ type's range.
  predicate WellFormed(c: FormatCapabilities) {
    && c.known
    && c.code == RESULT_OK
    && forall rate :: rate in c.depthsByRate ==> 0 < rate < MAX_RATE && WellFormedDepths(c.depthsByRate[rate])
  }

  predicate WellFormedDepths(depths: seq<nat>) {
    depths != [] && Ascending(depths) && forall i :: 0 <= i < |depths| ==> 0 < depths[i] < MAX_DEPTH
  }

  function Decimals(numbers: seq<nat>): (r: seq<string>)
    ensures |r| == |numbers| && forall i :: 0 <= i < |r| ==> r[i] == Decimal(numbers[i])
  {
    seq(|numbers|, i requires 0 <= i < |numbers| => Decimal(numbers[i]))
  }

  function EntryText(rate: nat, depths: seq<nat>): string {
    Decimal(rate) + ":" + Join(Decimals(depths), "/")
  }

  function EntryTexts(m: map<nat, seq<nat>>, rates: seq<nat>): (r: seq<string>)
    requires forall i :: 0 <= i < |rates| ==> rates[i] in m
    ensures |r| == |rates| && forall i :: 0 <= i < |r| ==> r[i] == EntryText(rates[i], m[rates[i]])
  {
    seq(|rates|, i requires 0 <= i < |rates| => EntryText(rates[i], m[rates[i]]))
  }

  function Serialise(c: FormatCapabilities): string {
    if !c.known then ""
    else if c.depthsByRate == map[] then "-"
    else Join(EntryTexts(c.depthsByRate, AscendingKeys(c.depthsByRate.Keys)), ";")
  }

  // The text itself: nothing for an unknown device, "-" for one that supports
  // nothing, and "rate:depth/depth;rate:depth" otherwise, by ascending rate.
  lemma SerialisedForms(code: ResultCode, rate: nat, other: nat, a: nat, b: nat)
    requires rate < other
    ensures Serialise(FormatCapabilities(false, code, map[])) == ""
    ensures Serialise(FormatCapabilities(true, code, map[])) == "-"
    ensures Serialise(FormatCapabilities(true, code, map[other := [b], rate := [a, b]]))
            == (Decimal(rate) + ":" + (Decimal(a) + "/" + Decimal(b))) + ";" + (Decimal(other) + ":" + Decimal(b))
  {
    hide Decimal, EntryTexts, Join, AscendingKeys, EntryText;
    var m: map<nat, seq<nat>> := map[other := [b], rate := [a, b]];
    assert m.Keys == {rate, other} && m[other] == [b] && m[rate] == [a, b];
    TwoEntries(m, rate, other);
    OneEntry(rate, a, b);
    OneEntry(other, b, b);
  }

  lemma TwoEntries(m: map<nat, seq<nat>>, rate: nat, other: nat)
    requires rate < other && m.Keys == {rate, other}
    ensures m != map[]
    ensures Join(EntryTexts(m, AscendingKeys(m.Keys)), ";")
            == EntryText(rate, m[rate]) + ";" + EntryText(other, m[other])
  {
    hide Join, AscendingKeys, EntryText;
    assert rate in m.Keys;
    TwoKeys(m.Keys, rate, other);
    TwoJoined(EntryTexts(m, [rate, other]), ";");
  }

  lemma OneEntry(rate: nat, a: nat, b: nat)
    ensures EntryText(rate, [a, b]) == Decimal(rate) + ":" + (Decimal(a) + "/" + Decimal(b))
    ensures EntryText(rate, [a]) == Decimal(rate) + ":" + Decimal(a)
  {
    hide Decimal, Join;
    TwoJoined(Decimals([a, b]), "/");
    assert Join(Decimals([a]), "/") == Decimal(a) by { OneJoined(Decimals([a]), "/"); }
  }

  lemma OneJoined(parts: seq<string>, separator: string)
    requires |parts| == 1
    ensures Join(parts, separator) == parts[0]
  {
  }

  lemma TwoJoined(parts: seq<string>, separator: string)
    requires |parts| == 2
    ensures Join(parts, separator) == parts[0] + separator + parts[1]
  {
    assert parts[1..] == [parts[1]];
  }

  lemma TwoKeys(keys: set<nat>, a: nat, b: nat)
    requires keys == {a, b} && a < b
    ensures AscendingKeys(keys) == [a, b]
  {
    hide Least;
    var r := AscendingKeys(keys);
    AscendingKeysOf(keys);
    assert |keys| == 2 by { assert keys == {a} + {b}; }
  }

  function Number(token: string): int { IntValue(Trim(token)) }

  function Numbers(tokens: seq<string>): (r: seq<int>)
    ensures |r| == |tokens| && forall i :: 0 <= i < |r| ==> r[i] == Number(tokens[i])
  {
    hide Number;
    seq(|tokens|, i requires 0 <= i < |tokens| => Number(tokens[i]))
  }

  // The positive ones, cut to 16 bits.
  function Depths(numbers: seq<int>): seq<nat> {
    if numbers == [] then []
    else (if numbers[0] > 0 then [numbers[0] % MAX_DEPTH] else []) + Depths(numbers[1..])
  }

  function RateOf(entry: string): int { Number(entry[..IndexOf(entry, ':')]) }

  function DepthTokens(entry: string): seq<string> {
    var colon := IndexOf(entry, ':');
    Split(if colon < |entry| then entry[colon + 1..] else "", '/')
  }

  // One entry's rate and depths; None when it is skipped.
  function ParseEntry(entry: string): Option<(nat, seq<nat>)> {
    hide RateOf, Sort, Depths, Numbers, DepthTokens;
    var rate := RateOf(entry);
    if rate <= 0 then None
    else
      var depths := Sort(Depths(Numbers(DepthTokens(entry))));
      if depths == [] then None else Some((rate % MAX_RATE, depths))
  }

  function ParseEntries(entries: seq<string>): map<nat, seq<nat>> {
    if entries == [] then map[]
    else
      var m := ParseEntries(entries[..|entries| - 1]);
      match ParseEntry(entries[|entries| - 1])
      case None => m
      case Some(e) => m[e.0 := e.1]
  }

  function Deserialise(text: string): FormatCapabilities {
    var t := Trim(text);
    if t == "" then UNKNOWN_CAPABILITIES
    else if t == "-" then FormatCapabilities(true, RESULT_OK, map[])
    else FormatCapabilities(true, RESULT_OK, ParseEntries(Split(t, ';')))
  }

  method SerialiseText(c: FormatCapabilities) returns (text: string)
    ensures text == Serialise(c)
    ensures WellFormed(c) ==> Deserialise(text) == c
  {
    hide Deserialise, Join, EntryTexts;
    if WellFormed(c) {
      DeserialiseSerialise(c);
    }
    if !c.known {
      return "";
    }
    var rates := AscendingKeys(c.depthsByRate.Keys);
    AscendingKeysOf(c.depthsByRate.Keys);
    hide AscendingKeys;
    var entries := ListEntries(c.depthsByRate, rates);
    text := if entries == [] then "-" else Join(entries, ";");
  }

  method ListEntries(m: map<nat, seq<nat>>, rates: seq<nat>) returns (entries: seq<string>)
    requires forall i :: 0 <= i < |rates| ==> rates[i] in m
    ensures entries == EntryTexts(m, rates)
  {
    hide Decimal, Join;
    entries := [];
    for i := 0 to |rates|
      invariant entries == EntryTexts(m, rates)[..i]
    {
      var d := DepthTexts(m[rates[i]]);
      entries := entries + [Decimal(rates[i]) + ":" + Join(d, "/")];
    }
  }

  method DepthTexts(depths: seq<nat>) returns (d: seq<string>)
    ensures d == Decimals(depths)
  {
    hide Decimal;
    d := [];
    for j := 0 to |depths|
      invariant d == Decimals(depths)[..j]
    {
      d := d + [Decimal(depths[j])];
    }
  }

  method DeserialiseText(text: string) returns (caps: FormatCapabilities)
    ensures caps == Deserialise(text)
  {
    hide Trim, Split, RateOf, DepthTokens, Numbers, Depths, Sort;
    caps := UNKNOWN_CAPABILITIES;
    var t := Trim(text);
    if t == "" {
      return;
    }
    caps := caps.(known := true);
    if t == "-" {
      return;
    }
    var entries := Split(t, ';');
    for i := 0 to |entries|
      invariant caps == FormatCapabilities(true, RESULT_OK, ParseEntries(entries[..i]))
    {
      assert entries[..i + 1][..i] == entries[..i];
      var rate := RateOf(entries[i]);
      if rate <= 0 {
        continue;
      }
      var depths := ReadDepths(entries[i]);
      depths := Sort(depths);
      if depths != [] {
        caps := caps.(depthsByRate := caps.depthsByRate[rate % MAX_RATE := depths]);
      }
    }
    assert entries[..|entries|] == entries;
  }

  method ReadDepths(entry: string) returns (depths: seq<nat>)
    ensures depths == Depths(Numbers(DepthTokens(entry)))
  {
    hide DepthTokens, Number;
    depths := [];
    var tokens := DepthTokens(entry);
    ghost var numbers := Numbers(tokens);
    for j := 0 to |tokens|
      invariant depths + Depths(numbers[j..]) == Depths(numbers)
    {
      assert numbers[j..][1..] == numbers[j + 1..];
      var bits := Number(tokens[j]);
      if bits > 0 {
        depths := depths + [bits % MAX_DEPTH];
      }
    }
  }

  // ----- Round trips -----

  predicate DigitEnds(s: string) { s != "" && IsDigit(s[0]) && IsDigit(s[|s| - 1]) }

  lemma {:induction false} JoinEnds(parts: seq<string>, separator: string)
    requires parts != [] && forall i :: 0 <= i < |parts| ==> DigitEnds(parts[i])
    ensures DigitEnds(Join(parts, separator))
  {
    if |parts| > 1 {
      JoinEnds(parts[1..], separator);
    }
  }

  lemma {:induction false} JoinHas(parts: seq<string>, separator: string, c: char)
    requires !Has(separator, c) && forall i :: 0 <= i < |parts| ==> !Has(parts[i], c)
    ensures !Has(Join(parts, separator), c)
  {
    if |parts| > 1 {
      JoinHas(parts[1..], separator, c);
    }
  }

  lemma {:induction false} DepthsOfPositive(depths: seq<nat>, numbers: seq<int>)
    requires |numbers| == |depths| && forall i :: 0 <= i < |depths| ==>
              numbers[i] == depths[i] && 0 < depths[i] < MAX_DEPTH
    ensures Depths(numbers) == depths
  {
    if depths == [] {
    } else {
      DepthsOfPositive(depths[1..], numbers[1..]);
      assert depths == [depths[0]] + depths[1..];
    }
  }

  lemma NumberDecimal(n: nat)
    ensures Number(Decimal(n)) == n
    ensures DigitEnds(Decimal(n)) && !Has(Decimal(n), ';') && !Has(Decimal(n), ':') && !Has(Decimal(n), '/')
  {
    hide Decimal, Trim, IntValue;
    DecimalPlain(n);
    TrimTrimmed(Decimal(n));
    IntValueDecimal(n);
  }

  lemma EntryShape(rate: nat, depths: seq<nat>)
    requires depths != []
    ensures DigitEnds(EntryText(rate, depths)) && !Has(EntryText(rate, depths), ';')
  {
    hide Decimal, Number, Join;
    var d := Decimals(depths);
    forall i | 0 <= i < |d|
      ensures DigitEnds(d[i]) && !Has(d[i], ';')
    {
      NumberDecimal(depths[i]);
    }
    NumberDecimal(rate);
    JoinEnds(d, "/");
    JoinHas(d, "/", ';');
  }

  lemma EntryParts(rate: nat, depths: seq<nat>)
    requires depths != []
    ensures RateOf(EntryText(rate, depths)) == rate
    ensures DepthTokens(EntryText(rate, depths)) == Decimals(depths)
  {
    hide Decimal, Number, Join, Split;
    var entry, d := EntryText(rate, depths), Decimals(depths);
    NumberDecimal(rate);
    IndexOfFirst(Decimal(rate), ':', Join(d, "/"));
    assert entry[..|Decimal(rate)|] == Decimal(rate) && entry[|Decimal(rate)| + 1..] == Join(d, "/");
    forall i | 0 <= i < |d|
      ensures d[i] != "" && !Has(d[i], '/')
    {
      NumberDecimal(depths[i]);
    }
    SplitJoin(d, '/');
    assert ['/'] == "/";
  }

  lemma ParseEntryText(rate: nat, depths: seq<nat>)
    requires 0 < rate < MAX_RATE && WellFormedDepths(depths)
    ensures ParseEntry(EntryText(rate, depths)) == Some((rate, depths))
  {
    hide RateOf, DepthTokens, EntryText, Decimal, Number;
    EntryParts(rate, depths);
    forall i | 0 <= i < |depths|
      ensures Number(Decimal(depths[i])) == depths[i]
    {
      NumberDecimal(depths[i]);
    }
    DepthsOfPositive(depths, Numbers(Decimals(depths)));
    SortAscending(depths);
  }

  lemma {:induction false} ParseEntriesOf(m: map<nat, seq<nat>>, rates: seq<nat>)
    requires forall i :: 0 <= i < |rates| ==> rates[i] in m
    requires forall i, j :: 0 <= i < j < |rates| ==> rates[i] < rates[j]
    requires forall rate :: rate in m ==> 0 < rate < MAX_RATE && WellFormedDepths(m[rate])
    ensures ParseEntries(EntryTexts(m, rates)) == map rate | rate in rates :: m[rate]
  {
    hide ParseEntry, EntryText;
    if rates == [] {
    } else {
      var n := |rates| - 1;
      assert EntryTexts(m, rates)[..n] == EntryTexts(m, rates[..n]);
      ParseEntriesOf(m, rates[..n]);
      ParseEntryText(rates[n], m[rates[n]]);
      assert rates == rates[..n] + [rates[n]];
    }
  }

  // What is written is read back: known-but-empty ("-") stays distinct from
  // unknown ("").
  lemma DeserialiseSerialise(c: FormatCapabilities)
    requires WellFormed(c) || c == UNKNOWN_CAPABILITIES
    ensures Deserialise(Serialise(c)) == c
  {
    hide ParseEntries, EntryText, Join, Split, Trim, AscendingKeys;
    TrimTrimmed("-");
    TrimTrimmed("");
    if c.known && c.depthsByRate != map[] {
      var m, rates := c.depthsByRate, AscendingKeys(c.depthsByRate.Keys);
      AscendingKeysOf(m.Keys);
      var entries := EntryTexts(m, rates);
      assert rates != [];
      forall i | 0 <= i < |entries|
        ensures DigitEnds(entries[i]) && !Has(entries[i], ';')
      {
        EntryShape(rates[i], m[rates[i]]);
      }
      JoinEnds(entries, ";");
      TrimTrimmed(Serialise(c));
      assert [';'] == ";";
      SplitJoin(entries, ';');
      ParseEntriesOf(m, rates);
      assert (map rate | rate in rates :: m[rate]) == m;
    }
  }

  // The numbers of an entry, and of a text, fit the types they are stored in.
  predicate EntryFits(entry: string) {
    RateOf(entry) < MAX_RATE && AllBelow(Numbers(DepthTokens(entry)), MAX_DEPTH)
  }

  predicate AllBelow(numbers: seq<int>, bound: int) { forall i :: 0 <= i < |numbers| ==> numbers[i] < bound }

  predicate NumbersFit(text: string) { forall entry :: entry in Split(Trim(text), ';') ==> EntryFits(entry) }

  lemma {:induction false} DepthsFit(numbers: seq<int>)
    requires AllBelow(numbers, MAX_DEPTH)
    ensures forall i :: 0 <= i < |Depths(numbers)| ==> 0 < Depths(numbers)[i] < MAX_DEPTH
  {
    if numbers == [] {
    } else {
      assert numbers[0] < MAX_DEPTH;
      assert forall i :: 0 <= i < |numbers[1..]| ==> numbers[1..][i] == numbers[i + 1];
      DepthsFit(numbers[1..]);
    }
  }

  lemma ParseEntryFits(entry: string)
    requires EntryFits(entry)
    ensures var e := ParseEntry(entry); e.Some? ==> 0 < e.value.0 < MAX_RATE && WellFormedDepths(e.value.1)
  {
    hide RateOf, DepthTokens, Numbers, Depths, Sort;
    var numbers := Numbers(DepthTokens(entry));
    DepthsFit(numbers);
    SortedFit(Depths(numbers));
  }

  lemma SortedFit(depths: seq<nat>)
    requires forall i :: 0 <= i < |depths| ==> 0 < depths[i] < MAX_DEPTH
    ensures depths != [] ==> WellFormedDepths(Sort(depths))
  {
    var r := Sort(depths);
    hide Sort;
    forall i | 0 <= i < |r|
      ensures 0 < r[i] < MAX_DEPTH
    {
      assert r[i] in depths;
    }
  }

  lemma {:induction false} ParseEntriesFit(entries: seq<string>)
    requires forall i :: 0 <= i < |entries| ==> EntryFits(entries[i])
    ensures WellFormed(FormatCapabilities(true, RESULT_OK, ParseEntries(entries)))
  {
    hide ParseEntry, EntryFits, WellFormedDepths;
    if entries == [] {
    } else {
      ParseEntriesFit(entries[..|entries| - 1]);
      ParseEntryFits(entries[|entries| - 1]);
    }
  }

  // Any text reaches its normal form in one step: reading it, writing the
  // result and reading that again changes nothing.
  lemma NormalForm(text: string)
    requires NumbersFit(text)
    ensures var c := Deserialise(text);
            (WellFormed(c) || c == UNKNOWN_CAPABILITIES) && Deserialise(Serialise(c)) == c
  {
    hide Split, Trim, Serialise, EntryFits, ParseEntries;
    var t := Trim(text);
    if t != "" && t != "-" {
      ParseEntriesFit(Split(t, ';'));
    }
    DeserialiseSerialise(Deserialise(text));
  }
}
