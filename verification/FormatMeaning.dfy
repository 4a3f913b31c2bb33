// What judging, applying and probing a format come to, told from the driver's
// answers about literal layouts alone (src/core/FormatPolicy.cpp).

module FormatMeaning {
  import opened AudioModel
  import opened Capabilities
  import opened Policies

  // `f` lays out a rate and a depth for the channels of the current format:
  // 16 bits as they are, 24 bits in 24 or in 32, and 32 bits as integers or as
  // floats. A device that reports no channels is taken to have two.
  predicate LaysOut(f: AudioFormat, rate: nat, bits: nat, current: AudioFormat) {
    && f.sampleRate == rate && f.validBits == bits
    && f.channels == (if current.channels == 0 then 2 else current.channels) && f.channelMask == current.channelMask
    && ((bits == 16 && f.containerBits == 16 && !f.isFloat)
        || (bits == 24 && (f.containerBits == 24 || f.containerBits == 32) && !f.isFloat)
        || (bits == 32 && f.containerBits == 32))
  }

  // The smaller container first, and integers before floats.
  predicate Before(f: AudioFormat, g: AudioFormat) {
    f.containerBits < g.containerBits || (f.containerBits == g.containerBits && !f.isFloat && g.isFloat)
  }

  predicate Accepts(r: Reply<bool>) { Succeeded(r.code) && r.value }

  predicate Refuses(r: Reply<bool>) { Succeeded(r.code) && !r.value }

  // The driver refuses every layout there is.
  ghost predicate AllRefused(rate: nat, bits: nat, current: AudioFormat, supports: FormatAnswers) {
    forall f :: LaysOut(f, rate, bits, current) ==> Refuses(supports(f))
  }

  // Every layout that comes before this one is refused.
  ghost predicate RefusedBefore(f: AudioFormat, rate: nat, bits: nat, current: AudioFormat, supports: FormatAnswers) {
    LaysOut(f, rate, bits, current)
    && forall g :: LaysOut(g, rate, bits, current) && Before(g, f) ==> Refuses(supports(g))
  }

  // The first layout that the driver does not refuse is one it accepts.
  ghost predicate FirstAccepted(f: AudioFormat, rate: nat, bits: nat, current: AudioFormat, supports: FormatAnswers) {
    RefusedBefore(f, rate, bits, current, supports) && Accepts(supports(f))
  }

  // The first layout that the driver does not refuse is one it fails on.
  ghost predicate FirstFailed(f: AudioFormat, rate: nat, bits: nat, current: AudioFormat, supports: FormatAnswers) {
    RefusedBefore(f, rate, bits, current, supports) && !Succeeded(supports(f).code)
  }

  // ----- The layouts that are tried -----

  lemma TriedAre(rate: nat, bits: nat, current: AudioFormat)
    ensures var tried := Candidates(rate, bits, current.channels, current.channelMask);
            && |tried| <= 2
            && (forall f :: f in tried <==> LaysOut(f, rate, bits, current))
            && (|tried| == 2 ==> Before(tried[0], tried[1]) && !Before(tried[1], tried[0]))
  {
    var tried := Candidates(rate, bits, current.channels, current.channelMask);
    forall f | LaysOut(f, rate, bits, current)
      ensures f in tried
    {
      if |tried| == 2 {
        assert f == tried[0] || f == tried[1];
      } else {
        assert f == tried[0];
      }
    }
  }

  // One of three: all are refused, or the first that is not is accepted, or it
  // fails; and that is what the choice is.
  lemma ChoiceMeans(rate: nat, bits: nat, current: AudioFormat, supports: FormatAnswers)
    ensures var c := Choose(Candidates(rate, bits, current.channels, current.channelMask), supports);
            && (c.NoneSupported? <==> AllRefused(rate, bits, current, supports))
            && (forall f :: c == Chosen(f) <==> FirstAccepted(f, rate, bits, current, supports))
            && (c.NotAnswered? <==> exists f :: FirstFailed(f, rate, bits, current, supports))
            && (forall f :: FirstFailed(f, rate, bits, current, supports) ==> c == NotAnswered(supports(f).code))
  {
    TriedAre(rate, bits, current);
    var tried := Candidates(rate, bits, current.channels, current.channelMask);
    hide Candidates, LaysOut, Before;
    assert forall f :: LaysOut(f, rate, bits, current) ==> f in tried;
    if |tried| == 0 {
      assert forall f :: !LaysOut(f, rate, bits, current);
    } else if |tried| == 1 {
      var f := tried[0];
      assert f in tried && tried[1..] == [];
      NotBeforeItself(f);
      assert Choose(tried, supports)
             == if !Succeeded(supports(f).code) then NotAnswered(supports(f).code)
                else if supports(f).value then Chosen(f)
                else NoneSupported;
      hide Choose;
      assert forall h :: LaysOut(h, rate, bits, current) <==> h == f;
      assert !Succeeded(supports(f).code) <==> FirstFailed(f, rate, bits, current, supports);
    } else {
      var f, g := tried[0], tried[1];
      assert f in tried && g in tried;
      NotBeforeItself(f);
      NotBeforeItself(g);
      assert tried[1..] == [g] && [g][1..] == [];
      assert Choose(tried, supports)
             == if !Succeeded(supports(f).code) then NotAnswered(supports(f).code)
                else if supports(f).value then Chosen(f)
                else Choose([g], supports);
      assert Choose([g], supports)
             == if !Succeeded(supports(g).code) then NotAnswered(supports(g).code)
                else if supports(g).value then Chosen(g)
                else NoneSupported;
      hide Choose;
      assert forall h :: LaysOut(h, rate, bits, current) <==> h == f || h == g;
      assert !Succeeded(supports(f).code) <==> FirstFailed(f, rate, bits, current, supports);
      assert Refuses(supports(f)) && !Succeeded(supports(g).code) <==> FirstFailed(g, rate, bits, current, supports);
    }
  }

  lemma NotBeforeItself(f: AudioFormat)
    ensures !Before(f, f)
  {
  }

  // ----- judgeAndApply -----

  predicate AtTarget(rate: nat, bits: nat, current: Reply<AudioFormat>) {
    Succeeded(current.code) && current.value.sampleRate == rate && current.value.validBits == bits
  }

  predicate OffTarget(rate: nat, bits: nat, current: Reply<AudioFormat>) {
    Succeeded(current.code) && (current.value.sampleRate != rate || current.value.validBits != bits)
  }

  // The write is accepted, and the format read back is at the target.
  predicate Sticks(rate: nat, bits: nat, a: ApplyAnswers) { Succeeded(a.write) && AtTarget(rate, bits, a.reread) }

  // Each outcome from the answers alone, for any rate and depth and a driver
  // that may refuse, fail or change its mind.
  lemma JudgeMeans(id: string, rate: nat, bits: nat, enforce: bool, a: ApplyAnswers)
    ensures var (out, writes) := JudgeAndApply(id, rate, bits, enforce, a);
            var current, supports := a.current.value, a.supports;
            && out.before == current
            && (out.result == Compliant <==> AtTarget(rate, bits, a.current))
            && (out.result == Unsupported <==>
                OffTarget(rate, bits, a.current) && AllRefused(rate, bits, current, supports))
            && (out.result == Unknown <==>
                || !Succeeded(a.current.code)
                || (OffTarget(rate, bits, a.current) && exists f :: FirstFailed(f, rate, bits, current, supports)))
            && (forall f :: OffTarget(rate, bits, a.current) && FirstAccepted(f, rate, bits, current, supports) ==>
                  && out.applied == f
                  && (out.result == Skipped <==> !enforce)
                  && (out.result == Applied <==> enforce && Sticks(rate, bits, a))
                  && (out.result == WriteFailed <==> enforce && !Succeeded(a.write))
                  && (out.result == VerifyFailed <==> enforce && Succeeded(a.write) && !Sticks(rate, bits, a)))
            && (out.result in {Skipped, Applied, WriteFailed, VerifyFailed} <==>
                OffTarget(rate, bits, a.current) && exists f :: FirstAccepted(f, rate, bits, current, supports))
            && (forall w :: w in writes <==>
                  && w.WriteFormat? && w.id == id && enforce && OffTarget(rate, bits, a.current)
                  && FirstAccepted(w.format, rate, bits, current, supports))
            && |writes| <= 1
  {
    ChoiceMeans(rate, bits, a.current.value, a.supports);
    hide Candidates, Choose, FirstAccepted, FirstFailed, AllRefused;
    var (out, writes) := JudgeAndApply(id, rate, bits, enforce, a);
    var c := Choose(Candidates(rate, bits, a.current.value.channels, a.current.value.channelMask), a.supports);
    if c.Chosen? {
      assert FirstAccepted(c.format, rate, bits, a.current.value, a.supports);
    }
  }

  // What the driver is asked about, and in which codes the outcome ends.
  lemma JudgeCode(id: string, rate: nat, bits: nat, enforce: bool, a: ApplyAnswers)
    ensures var out := JudgeAndApply(id, rate, bits, enforce, a).0;
            && (!Succeeded(a.current.code) ==> out.code == a.current.code)
            && (forall f :: OffTarget(rate, bits, a.current)
                            && FirstFailed(f, rate, bits, a.current.value, a.supports) ==>
                  out.code == a.supports(f).code)
            && (out.result in {Applied, WriteFailed, VerifyFailed} ==> out.code == a.write)
  {
    ChoiceMeans(rate, bits, a.current.value, a.supports);
    hide Candidates, Choose, FirstAccepted, FirstFailed, AllRefused;
  }

  // ----- probe -----

  // A rate and a depth that the user can choose.
  predicate Selectable(rate: nat, bits: nat) {
    && rate in [8000, 11025, 12000, 16000, 22050, 24000, 32000, 44100,
                48000, 88200, 96000, 176400, 192000, 352800, 384000]
    && (bits == 16 || bits == 24 || bits == 32)
  }

  lemma SelectableIs(rate: nat, bits: nat)
    ensures Selectable(rate, bits) <==> IsSupportedSampleRate(rate) && IsSupportedBitDepth(bits)
  {
  }

  // Some layout of the rate and depth is accepted.
  ghost predicate SomeAccepted(rate: nat, bits: nat, current: AudioFormat, supports: FormatAnswers) {
    exists f :: LaysOut(f, rate, bits, current) && supports(f).value
  }

  // The driver answers the questions about all layouts of everything selectable.
  ghost predicate AnswersAll(current: AudioFormat, supports: FormatAnswers) {
    forall f: AudioFormat :: Selectable(f.sampleRate, f.validBits) && LaysOut(f, f.sampleRate, f.validBits, current) ==>
      Succeeded(supports(f).code)
  }

  lemma ProbedAre(current: AudioFormat, f: AudioFormat)
    ensures f in ProbeList(SUPPORTED_SAMPLE_RATES, current)
            <==> Selectable(f.sampleRate, f.validBits) && LaysOut(f, f.sampleRate, f.validBits, current)
  {
    hide ProbeList, Candidates, LaysOut, Selectable;
    ProbeListMembers(SUPPORTED_SAMPLE_RATES, current, f.sampleRate, f.validBits, f);
    TriedAre(f.sampleRate, f.validBits, current);
    SelectableIs(f.sampleRate, f.validBits);
  }

  // The probe knows the device exactly when every question is answered, and
  // then it holds exactly the selectable rates and depths of which some layout
  // is accepted, each depth once and in ascending order.
  lemma ProbeMeans(current: AudioFormat, supports: FormatAnswers, rate: nat, bits: nat)
    ensures var caps := Probe(current, supports);
            && (caps.known <==> AnswersAll(current, supports))
            && (caps.Supports(rate, bits) <==>
                caps.known && Selectable(rate, bits) && SomeAccepted(rate, bits, current, supports))
  {
    var formats := ProbeList(SUPPORTED_SAMPLE_RATES, current);
    AskAllMeans(formats, supports);
    var (code, ok) := AskAll(formats, supports);
    forall f: AudioFormat
      ensures f in formats <==> Selectable(f.sampleRate, f.validBits) && LaysOut(f, f.sampleRate, f.validBits, current)
    {
      ProbedAre(current, f);
    }
    hide AskAll, ProbeList, Group, LaysOut, Selectable;
    if Succeeded(code) {
      GroupSupports(formats, ok, rate, bits);
      if i :| 0 <= i < |formats| && ok[i] && formats[i].Matches(rate, bits) {
        assert formats[i] in formats;
      }
      if f: AudioFormat :| Selectable(rate, bits) && LaysOut(f, rate, bits, current) && supports(f).value {
        assert f.sampleRate == rate && f.validBits == bits by { LaidOutMatches(f, rate, bits, current); }
        var i :| 0 <= i < |formats| && formats[i] == f;
      }
    }
  }

  lemma LaidOutMatches(f: AudioFormat, rate: nat, bits: nat, current: AudioFormat)
    requires LaysOut(f, rate, bits, current)
    ensures f.sampleRate == rate && f.validBits == bits && f.Matches(rate, bits)
  {
  }

  // ----- The depths are in order -----

  predicate Distinct(depths: seq<nat>) { forall i, j :: 0 <= i < j < |depths| ==> depths[i] != depths[j] }

  lemma {:induction false} GroupDistinct(formats: seq<AudioFormat>, ok: seq<bool>)
    requires |ok| == |formats|
    ensures forall rate :: rate in Group(formats, ok) ==>
              Group(formats, ok)[rate] != [] && Distinct(Group(formats, ok)[rate])
  {
    if formats == [] {
    } else {
      GroupDistinct(formats[..|formats| - 1], ok[..|formats| - 1]);
    }
  }

  // Of each rate the probe lists some depths, each once, in ascending order.
  lemma ProbeSorted(current: AudioFormat, supports: FormatAnswers, rate: nat)
    ensures var m := Probe(current, supports).depthsByRate;
            rate in m ==> m[rate] != [] && forall i, j :: 0 <= i < j < |m[rate]| ==> m[rate][i] < m[rate][j]
  {
    var formats := ProbeList(SUPPORTED_SAMPLE_RATES, current);
    var (code, ok) := AskAll(formats, supports);
    hide ProbeList, AskAll, Group;
    if |ok| == |formats| {
      GroupDistinct(formats, ok);
      var m := Group(formats, ok);
      if rate in m {
        SortStrictly(m[rate]);
      }
    }
  }

  lemma SortStrictly(depths: seq<nat>)
    requires Distinct(depths)
    ensures forall i, j :: 0 <= i < j < |Sort(depths)| ==> Sort(depths)[i] < Sort(depths)[j]
  {
    var r := Sort(depths);
    hide Sort;
    forall i, j | 0 <= i < j < |r|
      ensures r[i] != r[j]
    {
      OnlyOnce(depths, r[i]);
      if r[i] == r[j] {
        MoreThanOnce(r, i, j);
        assert false;
      }
    }
  }

  lemma MoreThanOnce(s: seq<nat>, i: nat, j: nat)
    requires i < j < |s| && s[i] == s[j]
    ensures multiset(s)[s[i]] >= 2
  {
    assert s == s[..i] + [s[i]] + s[i + 1..j] + [s[j]] + s[j + 1..];
  }

  lemma {:induction false} OnlyOnce(s: seq<nat>, x: nat)
    requires Distinct(s)
    ensures multiset(s)[x] <= 1
  {
    if s == [] {
    } else {
      OnlyOnce(s[1..], x);
      assert s == [s[0]] + s[1..];
      if s[0] == x {
        assert x !in s[1..];
      }
    }
  }
}
