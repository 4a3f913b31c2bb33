// Comparing a device's format with the target, applying it and asking the
// driver what it supports (src/core/FormatPolicy.cpp, src/audio/AudioInterfaces.h),
// and the exclusive-mode policy (src/core/ExclusiveModePolicy.cpp).

module Policies {
  import opened AudioModel
  import opened Capabilities

  // Every change Audioslave asks of a device.
  datatype DeviceWrite =
    | WriteDescription(id: string, text: string)
    | WriteExclusive(id: string)
    | WriteFormat(id: string, format: AudioFormat)
    | WriteEnabled(id: string, enabled: bool)

  // A driver's answers about formats at one moment.
  type FormatAnswers = AudioFormat -> Reply<bool>

  // ----- Candidate layouts -----

  function Layout(rate: nat, bits: nat, channels: nat, mask: nat, container: nat, isFloat: bool): AudioFormat {
    AudioFormat(rate, bits, container, isFloat, if channels == 0 then 2 else channels, mask)
  }

  // The formats to try for a rate and a depth, in the order of preference.
  function Candidates(rate: nat, bits: nat, channels: nat, mask: nat): (r: seq<AudioFormat>)
    ensures forall i :: 0 <= i < |r| ==> r[i].Matches(rate, bits)
  {
    if bits == 16 then [Layout(rate, bits, channels, mask, 16, false)]
    else if bits == 24 then [Layout(rate, bits, channels, mask, 24, false),
                            Layout(rate, bits, channels, mask, 32, false)]
    else if bits == 32 then [Layout(rate, bits, channels, mask, 32, false),
                            Layout(rate, bits, channels, mask, 32, true)]
    else []
  }

  // ----- judgeAndApply -----

  datatype FormatResult = Compliant | Applied | Unsupported | Unknown | WriteFailed | VerifyFailed | Skipped

  datatype FormatOutcome = FormatOutcome(result: FormatResult, before: AudioFormat,
                                         applied: AudioFormat, code: ResultCode)

  // The answers judgeAndApply gets, in order.
  datatype ApplyAnswers = ApplyAnswers(
    current: Reply<AudioFormat>,
    supports: FormatAnswers,
    write: ResultCode,
    reread: Reply<AudioFormat>)

  datatype Choice = Chosen(format: AudioFormat) | NoneSupported | NotAnswered(code: ResultCode)

  // The first supported candidate, unless the driver fails before.
  function Choose(formats: seq<AudioFormat>, supports: FormatAnswers): Choice {
    if formats == [] then NoneSupported
    else
      var answer := supports(formats[0]);
      if !Succeeded(answer.code) then NotAnswered(answer.code)
      else if answer.value then Chosen(formats[0])
      else Choose(formats[1..], supports)
  }

  function JudgeAndApply(id: string, rate: nat, bits: nat, enforce: bool, a: ApplyAnswers)
      : (FormatOutcome, seq<DeviceWrite>) {
    var before := a.current.value;
    if !Succeeded(a.current.code) then (FormatOutcome(Unknown, before, DEFAULT_FORMAT, a.current.code), [])
    else if before.Matches(rate, bits) then (FormatOutcome(Compliant, before, DEFAULT_FORMAT, a.current.code), [])
    else
      match Choose(Candidates(rate, bits, before.channels, before.channelMask), a.supports)
      case NotAnswered(code) => (FormatOutcome(Unknown, before, DEFAULT_FORMAT, code), [])
      case NoneSupported => (FormatOutcome(Unsupported, before, DEFAULT_FORMAT, a.current.code), [])
      case Chosen(f) =>
        if !enforce then (FormatOutcome(Skipped, before, f, a.current.code), [])
        else if !Succeeded(a.write) then (FormatOutcome(WriteFailed, before, f, a.write), [WriteFormat(id, f)])
        else if !Succeeded(a.reread.code) || !a.reread.value.Matches(rate, bits) then
          (FormatOutcome(VerifyFailed, before, f, a.write), [WriteFormat(id, f)])
        else (FormatOutcome(Applied, before, f, a.write), [WriteFormat(id, f)])
  }

  method ChooseFormat(formats: seq<AudioFormat>, supports: FormatAnswers) returns (choice: Choice)
    ensures choice == Choose(formats, supports)
  {
    for i := 0 to |formats|
      invariant Choose(formats[i..], supports) == Choose(formats, supports)
    {
      assert formats[i..][0] == formats[i] && formats[i..][1..] == formats[i + 1..];
      var answer := supports(formats[i]);
      if !Succeeded(answer.code) {
        return NotAnswered(answer.code);
      }
      if answer.value {
        return Chosen(formats[i]);
      }
    }
    choice := NoneSupported;
  }

  method JudgeFormat(id: string, rate: nat, bits: nat, enforce: bool, a: ApplyAnswers)
    returns (out: FormatOutcome, writes: seq<DeviceWrite>)
    ensures (out, writes) == JudgeAndApply(id, rate, bits, enforce, a)
  {
    out := FormatOutcome(Unknown, a.current.value, DEFAULT_FORMAT, a.current.code);
    writes := [];
    if !Succeeded(out.code) {
      return;
    }
    if out.before.Matches(rate, bits) {
      out := out.(result := Compliant);
      return;
    }
    var formats := Candidates(rate, bits, out.before.channels, out.before.channelMask);
    var choice := ChooseFormat(formats, a.supports);
    hide Candidates, Choose;
    match choice {
      case NotAnswered(code) =>
        out := out.(code := code);
        return;
      case NoneSupported =>
        out := out.(result := Unsupported);
        return;
      case Chosen(f) =>
        out := out.(applied := f);
        if !enforce {
          out := out.(result := Skipped);
          return;
        }
        writes := [WriteFormat(id, f)];
        out := out.(code := a.write);
        if !Succeeded(out.code) {
          out := out.(result := WriteFailed);
          return;
        }
        if !Succeeded(a.reread.code) || !a.reread.value.Matches(rate, bits) {
          out := out.(result := VerifyFailed);
          return;
        }
        out := out.(result := Applied);
    }
  }

  // What a choice says about every candidate.
  lemma {:induction false} ChooseMeans(formats: seq<AudioFormat>, supports: FormatAnswers)
    ensures var c := Choose(formats, supports);
            && (c.Chosen? ==> c.format in formats && Succeeded(supports(c.format).code) && supports(c.format).value)
            && (c.NoneSupported? <==> forall f :: f in formats ==> Succeeded(supports(f).code) && !supports(f).value)
            && (c.NotAnswered? ==> exists f :: f in formats && !Succeeded(supports(f).code))
  {
    if formats == [] {
    } else {
      ChooseMeans(formats[1..], supports);
      assert formats == [formats[0]] + formats[1..];
    }
  }

  // A format is written only when enforcing, at most once, and only one that
  // realises the target and that the driver said it supports.
  lemma OnlySupportedWritten(id: string, rate: nat, bits: nat, enforce: bool, a: ApplyAnswers)
    ensures var (out, writes) := JudgeAndApply(id, rate, bits, enforce, a);
            writes != [] ==>
              && enforce && writes == [WriteFormat(id, out.applied)] && out.applied.Matches(rate, bits)
              && Succeeded(a.supports(out.applied).code) && a.supports(out.applied).value
              && !out.before.Matches(rate, bits)
  {
    var formats := Candidates(rate, bits, a.current.value.channels, a.current.value.channelMask);
    ChooseMeans(formats, a.supports);
    hide Candidates, Choose;
  }

  // ----- probe -----

  // Every candidate of every selectable rate and depth, in order.
  function ProbeAtRate(rate: nat, depths: seq<nat>, current: AudioFormat): seq<AudioFormat> {
    if depths == [] then []
    else Candidates(rate, depths[0], current.channels, current.channelMask) + ProbeAtRate(rate, depths[1..], current)
  }

  function ProbeList(rates: seq<nat>, current: AudioFormat): seq<AudioFormat> {
    if rates == [] then [] else ProbeAtRate(rates[0], SUPPORTED_BIT_DEPTHS, current) + ProbeList(rates[1..], current)
  }

  // The default probeFormats: one answer per format, unless one fails.
  function AskAll(formats: seq<AudioFormat>, supports: FormatAnswers): (ResultCode, seq<bool>) {
    if formats == [] then (RESULT_OK, [])
    else
      var n := |formats| - 1;
      var (code, answers) := AskAll(formats[..n], supports);
      if !Succeeded(code) then (code, answers)
      else
        var answer := supports(formats[n]);
        if !Succeeded(answer.code) then (answer.code, answers) else (RESULT_OK, answers + [answer.value])
  }

  // The supported depths of each rate, in the order they were asked.
  function Group(formats: seq<AudioFormat>, ok: seq<bool>): map<nat, seq<nat>>
    requires |ok| == |formats|
  {
    if formats == [] then map[]
    else
      var n := |formats| - 1;
      var m := Group(formats[..n], ok[..n]);
      if !ok[n] then m else AddDepth(m, formats[n].sampleRate, formats[n].validBits)
  }

  function AddDepth(m: map<nat, seq<nat>>, rate: nat, depth: nat): map<nat, seq<nat>> {
    var depths := if rate in m then m[rate] else [];
    m[rate := if depth in depths then depths else depths + [depth]]
  }

  function SortAll(m: map<nat, seq<nat>>): map<nat, seq<nat>> { map rate | rate in m :: Sort(m[rate]) }

  function Probe(current: AudioFormat, supports: FormatAnswers): FormatCapabilities {
    var formats := ProbeList(SUPPORTED_SAMPLE_RATES, current);
    var (code, ok) := AskAll(formats, supports);
    if !Succeeded(code) || |ok| != |formats| then FormatCapabilities(false, code, map[])
    else FormatCapabilities(true, code, SortAll(Group(formats, ok)))
  }

  method ProbeFormats(formats: seq<AudioFormat>, supports: FormatAnswers)
      returns (code: ResultCode, supported: seq<bool>)
    ensures (code, if Succeeded(code) then supported else AskAll(formats, supports).1) == AskAll(formats, supports)
    ensures |supported| == |formats|
  {
    AskAllMeans(formats, supports);
    supported := seq(|formats|, _ => false);
    for i := 0 to |formats|
      invariant |supported| == |formats|
      invariant AskAll(formats[..i], supports) == (RESULT_OK, supported[..i])
    {
      assert formats[..i + 1][..i] == formats[..i];
      var answer := supports(formats[i]);
      if !Succeeded(answer.code) {
        AskAllStops(formats, i + 1, supports);
        return answer.code, supported;
      }
      ghost var before := supported;
      supported := supported[i := answer.value];
      assert supported[..i + 1] == before[..i] + [answer.value];
    }
    assert formats[..|formats|] == formats && supported[..|formats|] == supported;
    code := RESULT_OK;
  }

  // A failure ends the questions.
  lemma {:induction false} AskAllStops(formats: seq<AudioFormat>, i: nat, supports: FormatAnswers)
    requires i <= |formats| && !Succeeded(AskAll(formats[..i], supports).0)
    ensures AskAll(formats, supports) == AskAll(formats[..i], supports)
  {
    if i == |formats| {
      assert formats[..i] == formats;
    } else {
      var n := |formats| - 1;
      assert formats[..n][..i] == formats[..i];
      AskAllStops(formats[..n], i, supports);
    }
  }

  lemma {:induction false} AskAllMeans(formats: seq<AudioFormat>, supports: FormatAnswers)
    ensures var (code, ok) := AskAll(formats, supports);
            && (Succeeded(code) <==> forall f :: f in formats ==> Succeeded(supports(f).code))
            && (Succeeded(code) ==> code == RESULT_OK && |ok| == |formats|
                                    && forall i :: 0 <= i < |ok| ==> ok[i] == supports(formats[i]).value)
  {
    if formats == [] {
    } else {
      var n := |formats| - 1;
      AskAllMeans(formats[..n], supports);
      assert formats == formats[..n] + [formats[n]];
    }
  }

  method ProbeDevice(current: AudioFormat, supports: FormatAnswers) returns (caps: FormatCapabilities)
    ensures caps == Probe(current, supports)
  {
    hide ProbeList, AskAll, Group, SortAll;
    var formats := CollectFormats(SUPPORTED_SAMPLE_RATES, current);
    var code, ok := ProbeFormats(formats, supports);
    AskAllMeans(formats, supports);
    if !Succeeded(code) {
      return FormatCapabilities(false, code, map[]);
    }
    var m := GroupAnswers(formats, ok);
    caps := FormatCapabilities(true, code, SortAll(m));
  }

  method CollectFormats(rates: seq<nat>, current: AudioFormat) returns (formats: seq<AudioFormat>)
    ensures formats == ProbeList(rates, current)
  {
    hide ProbeAtRate;
    formats := [];
    for r := 0 to |rates|
      invariant formats + ProbeList(rates[r..], current) == ProbeList(rates, current)
    {
      assert rates[r..][0] == rates[r] && rates[r..][1..] == rates[r + 1..];
      formats := CollectDepths(formats, rates[r], current);
    }
  }

  method CollectDepths(formats: seq<AudioFormat>, rate: nat, current: AudioFormat) returns (out: seq<AudioFormat>)
    ensures out == formats + ProbeAtRate(rate, SUPPORTED_BIT_DEPTHS, current)
  {
    hide Candidates;
    out := formats;
    for d := 0 to |SUPPORTED_BIT_DEPTHS|
      invariant out + ProbeAtRate(rate, SUPPORTED_BIT_DEPTHS[d..], current)
              == formats + ProbeAtRate(rate, SUPPORTED_BIT_DEPTHS, current)
    {
      assert SUPPORTED_BIT_DEPTHS[d..][1..] == SUPPORTED_BIT_DEPTHS[d + 1..];
      out := out + Candidates(rate, SUPPORTED_BIT_DEPTHS[d], current.channels, current.channelMask);
    }
  }

  method GroupAnswers(formats: seq<AudioFormat>, ok: seq<bool>) returns (m: map<nat, seq<nat>>)
    requires |ok| == |formats|
    ensures m == Group(formats, ok)
  {
    m := map[];
    for i := 0 to |formats|
      invariant m == Group(formats[..i], ok[..i])
    {
      assert formats[..i + 1][..i] == formats[..i] && ok[..i + 1][..i] == ok[..i];
      if !ok[i] {
        continue;
      }
      m := AddDepth(m, formats[i].sampleRate, formats[i].validBits);
    }
    assert formats[..|formats|] == formats && ok[..|ok|] == ok;
  }

  // ----- What the probe says about a rate and a depth -----

  // The driver answers every question.
  ghost predicate AllAnswered(supports: FormatAnswers) { forall f :: Succeeded(supports(f).code) }

  // Some layout of the rate and depth is supported.
  predicate SomeCandidate(rate: nat, bits: nat, current: AudioFormat, supports: FormatAnswers) {
    exists f :: f in Candidates(rate, bits, current.channels, current.channelMask) && supports(f).value
  }

  lemma {:induction false} GroupSupports(formats: seq<AudioFormat>, ok: seq<bool>, rate: nat, bits: nat)
    requires |ok| == |formats|
    ensures var m := Group(formats, ok);
            (rate in m && bits in m[rate]) <==>
              exists i :: 0 <= i < |formats| && ok[i] && formats[i].Matches(rate, bits)
  {
    if formats == [] {
    } else {
      var n := |formats| - 1;
      var front, okFront := formats[..n], ok[..n];
      GroupSupports(front, okFront, rate, bits);
      if i :| 0 <= i < |formats| && ok[i] && formats[i].Matches(rate, bits) {
        assert i < n ==> okFront[i] && front[i].Matches(rate, bits);
      }
      if i :| 0 <= i < |front| && okFront[i] && front[i].Matches(rate, bits) {
        assert ok[i] && formats[i].Matches(rate, bits);
      }
    }
  }

  lemma {:induction false} ProbeAtRateMembers(rate: nat, depths: seq<nat>, current: AudioFormat, bits: nat,
                                              f: AudioFormat)
    requires f.validBits == bits
    ensures f in ProbeAtRate(rate, depths, current)
            <==> bits in depths && f in Candidates(rate, bits, current.channels, current.channelMask)
  {
    hide Candidates;
    if depths == [] {
    } else {
      ProbeAtRateMembers(rate, depths[1..], current, bits, f);
      assert depths == [depths[0]] + depths[1..];
      if f in Candidates(rate, depths[0], current.channels, current.channelMask) {
        assert f.Matches(rate, depths[0]);
      }
    }
  }

  lemma {:induction false} ProbeListMembers(rates: seq<nat>, current: AudioFormat, rate: nat, bits: nat, f: AudioFormat)
    requires f.Matches(rate, bits)
    ensures f in ProbeList(rates, current)
            <==> rate in rates && IsSupportedBitDepth(bits)
                 && f in Candidates(rate, bits, current.channels, current.channelMask)
  {
    hide Candidates, ProbeAtRate;
    if rates == [] {
    } else {
      ProbeListMembers(rates[1..], current, rate, bits, f);
      ProbeAtRateMembers(rates[0], SUPPORTED_BIT_DEPTHS, current, bits, f);
      assert rates == [rates[0]] + rates[1..];
      if f in Candidates(rates[0], bits, current.channels, current.channelMask) {
        assert f.Matches(rates[0], bits);
      }
    }
  }

  // The capabilities hold a rate and a depth exactly when some layout of them
  // is supported.
  lemma ProbeSupports(current: AudioFormat, supports: FormatAnswers, rate: nat, bits: nat)
    requires AllAnswered(supports) && IsSupportedSampleRate(rate) && IsSupportedBitDepth(bits)
    ensures Probe(current, supports).known
    ensures Probe(current, supports).Supports(rate, bits) <==> SomeCandidate(rate, bits, current, supports)
  {
    var formats := ProbeList(SUPPORTED_SAMPLE_RATES, current);
    AskAllMeans(formats, supports);
    var (code, ok) := AskAll(formats, supports);
    hide AskAll, ProbeList, Group, Candidates, IsSupportedBitDepth;
    GroupSupports(formats, ok, rate, bits);
    forall f: AudioFormat | f.Matches(rate, bits)
      ensures f in formats <==> f in Candidates(rate, bits, current.channels, current.channelMask)
    {
      ProbeListMembers(SUPPORTED_SAMPLE_RATES, current, rate, bits, f);
    }
    hide IsSupportedSampleRate;
    if i :| 0 <= i < |formats| && ok[i] && formats[i].Matches(rate, bits) {
      assert formats[i] in formats;
    }
    if f :| f in Candidates(rate, bits, current.channels, current.channelMask) && supports(f).value {
      assert f.Matches(rate, bits);
      var i :| 0 <= i < |formats| && formats[i] == f;
    }
  }

  // Only the channel layout of the current format matters to a probe, and two
  // channels are assumed when the driver reports none.
  predicate SameLayout(a: AudioFormat, b: AudioFormat) {
    && a.channelMask == b.channelMask
    && (if a.channels == 0 then 2 else a.channels) == (if b.channels == 0 then 2 else b.channels)
  }

  lemma {:induction false} ProbeAtRateLayout(rate: nat, depths: seq<nat>, a: AudioFormat, b: AudioFormat)
    requires SameLayout(a, b)
    ensures ProbeAtRate(rate, depths, a) == ProbeAtRate(rate, depths, b)
  {
    if depths == [] {
    } else {
      ProbeAtRateLayout(rate, depths[1..], a, b);
    }
  }

  lemma {:induction false} ProbeListLayout(rates: seq<nat>, a: AudioFormat, b: AudioFormat)
    requires SameLayout(a, b)
    ensures ProbeList(rates, a) == ProbeList(rates, b)
  {
    hide ProbeAtRate;
    if rates == [] {
    } else {
      ProbeListLayout(rates[1..], a, b);
      ProbeAtRateLayout(rates[0], SUPPORTED_BIT_DEPTHS, a, b);
    }
  }

  lemma ProbeLayout(a: AudioFormat, b: AudioFormat, supports: FormatAnswers)
    requires SameLayout(a, b)
    ensures Probe(a, supports) == Probe(b, supports)
  {
    hide ProbeList, AskAll, Group, SortAll;
    ProbeListLayout(SUPPORTED_SAMPLE_RATES, a, b);
  }

  // The direct question and the probe agree: with a driver that answers, a
  // device is unsupported exactly when it is not at the target and the probe
  // lacks the target.
  lemma UnsupportedIff(id: string, rate: nat, bits: nat, enforce: bool, a: ApplyAnswers)
    requires Succeeded(a.current.code) && AllAnswered(a.supports)
    requires IsSupportedSampleRate(rate) && IsSupportedBitDepth(bits)
    ensures JudgeAndApply(id, rate, bits, enforce, a).0.result == Unsupported
            <==> !a.current.value.Matches(rate, bits) && !Probe(a.current.value, a.supports).Supports(rate, bits)
    ensures JudgeAndApply(id, rate, bits, enforce, a).0.result != Unknown
  {
    var before := a.current.value;
    var formats := Candidates(rate, bits, before.channels, before.channelMask);
    ProbeSupports(before, a.supports, rate, bits);
    ChooseMeans(formats, a.supports);
    hide Candidates, Choose, Probe, IsSupportedSampleRate, IsSupportedBitDepth;
  }

  // So the verdict on an unsupported device, from capabilities asked of the
  // same driver, is never "compatible".
  lemma UnsupportedIsNotCompatible(id: string, rate: nat, bits: nat, enforce: bool, a: ApplyAnswers)
    requires Succeeded(a.current.code) && AllAnswered(a.supports)
    requires IsSupportedSampleRate(rate) && IsSupportedBitDepth(bits)
    requires JudgeAndApply(id, rate, bits, enforce, a).0.result == Unsupported
    ensures JudgeCompatibility(Probe(a.current.value, a.supports), rate, bits) != Compatible
  {
    hide Probe, JudgeAndApply, IsSupportedSampleRate, IsSupportedBitDepth;
    UnsupportedIff(id, rate, bits, enforce, a);
  }

  // ----- Exclusive mode -----

  datatype ExclusiveResult = ExclusiveUnknown | AlreadyOff | Fixed
    | ExclusiveWriteFailed | ExclusiveVerifyFailed | ExclusiveSkipped

  // The answers judgeAndFix gets: whether exclusive control is allowed, read
  // before and after the write.
  datatype ExclusiveAnswers = ExclusiveAnswers(before: Reply<bool>, write: ResultCode, after: Reply<bool>)

  function JudgeAndFix(id: string, enforce: bool, a: ExclusiveAnswers): (ExclusiveResult, seq<DeviceWrite>) {
    if !Succeeded(a.before.code) then (ExclusiveUnknown, [])
    else if !a.before.value then (AlreadyOff, [])
    else if !enforce then (ExclusiveSkipped, [])
    else if !Succeeded(a.write) then (ExclusiveWriteFailed, [WriteExclusive(id)])
    else if !Succeeded(a.after.code) || a.after.value then (ExclusiveVerifyFailed, [WriteExclusive(id)])
    else (Fixed, [WriteExclusive(id)])
  }
}
