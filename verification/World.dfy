// Devices that behave: what the audio stack answers when its calls succeed,
// its writes stick and nobody else changes a device.

module Worlds {
  import opened AudioModel
  import opened Capabilities
  import opened Configurations
  import opened Policies
  import opened EndpointPolicy

  // A device and its driver. `whenEnabled` is its state once it is enabled.
  datatype Device = Device(
    flow: EndpointFlow,
    state: EndpointState,
    description: string,
    exclusiveAllowed: bool,
    format: AudioFormat,
    supports: AudioFormat -> bool,
    whenEnabled: EndpointState)

  type World = map<string, Device>

  predicate SoundDevice(d: Device) { d.whenEnabled == Active || d.whenEnabled == Unplugged }

  // What a write does to its device.
  function Written(d: Device, w: DeviceWrite): Device {
    match w
    case WriteDescription(_, text) => d.(description := text)
    case WriteExclusive(_) => d.(exclusiveAllowed := false)
    case WriteFormat(_, f) => d.(format := f)
    case WriteEnabled(_, enabled) => d.(state := if enabled then d.whenEnabled else Disabled)
  }

  function WrittenAll(d: Device, writes: seq<DeviceWrite>): Device {
    if writes == [] then d else Written(WrittenAll(d, writes[..|writes| - 1]), writes[|writes| - 1])
  }

  // A driver that always answers, and always the same.
  function DriverAnswers(d: Device): FormatAnswers { f => Reply(RESULT_OK, d.supports(f)) }

  // The device's formats, asked now.
  function FreshCapabilities(d: Device): FormatCapabilities { Probe(d.format, DriverAnswers(d)) }

  predicate Answered<T(==)>(r: Reply<T>, value: T) { Succeeded(r.code) && r.value == value }

  // The answers the device gives during one step.
  ghost predicate Honest(d: Device, cfg: Configuration, a: Answers) {
    && a.canModify
    && Answered(a.live, d.state)
    && Succeeded(a.setDescription)
    && Answered(a.exclusive.before, d.exclusiveAllowed)
    && Succeeded(a.exclusive.write)
    && Answered(a.exclusive.after, false)
    && Answered(a.apply.current, d.format)
    && a.apply.supports == DriverAnswers(d)
    && Succeeded(a.apply.write)
    && (forall f :: Choose(Candidates(cfg.sampleRate, cfg.bitDepth, d.format.channels, d.format.channelMask),
                     DriverAnswers(d)) == Chosen(f)
                    ==> Answered(a.apply.reread, f))
    && Answered(a.current, d.format)
    && a.probe == DriverAnswers(d)
    && Answered(a.liveBeforeDisable, d.state)
    && Succeeded(a.disable)
    && Answered(a.stateAfterDisable, Disabled)
    && Succeeded(a.enable)
    && Answered(a.stateAfterEnable, d.whenEnabled)
  }

  // The enumeration shows the device as it is.
  predicate Shows(ep: AudioEndpoint, d: Device) {
    ep.flow == d.flow && ep.state == d.state && ep.description == d.description && ep.id != ""
  }

  // What the engine remembers about the formats of the device is up to date.
  predicate UpToDate(s: Slice, d: Device) {
    && (s.caps.Some? ==> s.caps.value == FreshCapabilities(d))
    && (DisabledByUs(s) ==> s.record.value.capabilities == FreshCapabilities(d))
  }

  // A configuration under which passes act.
  predicate Enforcing(cfg: Configuration) {
    cfg.enforce && IsSupportedSampleRate(cfg.sampleRate) && IsSupportedBitDepth(cfg.bitDepth)
  }

  function Verdict(d: Device, cfg: Configuration): Compatibility {
    JudgeCompatibility(FreshCapabilities(d), cfg.sampleRate, cfg.bitDepth)
  }

  // ----- The format step of an honest device -----

  lemma DriverAnswersAll(d: Device)
    ensures AllAnswered(DriverAnswers(d))
  {
  }

  // A written format keeps the channel layout, so the capabilities stay fresh.
  lemma FormatKeepsCapabilities(d: Device, rate: nat, bits: nat, f: AudioFormat)
    requires f in Candidates(rate, bits, d.format.channels, d.format.channelMask)
    ensures FreshCapabilities(d.(format := f)) == FreshCapabilities(d)
    ensures f.Matches(rate, bits)
  {
    assert SameLayout(d.format, f);
    var d' := d.(format := f);
    assert DriverAnswers(d') == DriverAnswers(d) by {
      assert d'.supports == d.supports;
    }
    hide Probe, Candidates;
    ProbeLayout(d.format, f, DriverAnswers(d));
  }

  // What judgeAndApply finds on an honest device.
  lemma HonestFormat(id: string, d: Device, cfg: Configuration, a: Answers)
    requires Honest(d, cfg, a) && Enforcing(cfg)
    ensures var (out, writes) := JudgeAndApply(id, cfg.sampleRate, cfg.bitDepth, true, a.apply);
            && out.before == d.format
            && (d.format.Matches(cfg.sampleRate, cfg.bitDepth) ==> out.result == Compliant && writes == [])
            && (!d.format.Matches(cfg.sampleRate, cfg.bitDepth) ==>
                  if Verdict(d, cfg) == Compatible then
                    && out.result == Applied && writes == [WriteFormat(id, out.applied)]
                    && out.applied.Matches(cfg.sampleRate, cfg.bitDepth)
                    && FreshCapabilities(d.(format := out.applied)) == FreshCapabilities(d)
                  else out.result == Unsupported && writes == [])
  {
    hide Probe, Candidates, Choose, IsSupportedSampleRate, IsSupportedBitDepth;
    var formats := Candidates(cfg.sampleRate, cfg.bitDepth, d.format.channels, d.format.channelMask);
    DriverAnswersAll(d);
    UnsupportedIff(id, cfg.sampleRate, cfg.bitDepth, true, a.apply);
    ChooseMeans(formats, DriverAnswers(d));
    var c := Choose(formats, DriverAnswers(d));
    assert Answered(a.apply.current, d.format);
    if c.Chosen? {
      FormatKeepsCapabilities(d, cfg.sampleRate, cfg.bitDepth, c.format);
      assert Answered(a.apply.reread, c.format);
    }
    assert FreshCapabilities(d) == Probe(a.apply.current.value, a.apply.supports);
    ProbeSupports(d.format, DriverAnswers(d), cfg.sampleRate, cfg.bitDepth);
    CompatibleIffSupports(FreshCapabilities(d), cfg.sampleRate, cfg.bitDepth);
    hide SomeCandidate, FreshCapabilities, JudgeCompatibility;
  }

  lemma CompatibleIffSupports(caps: FormatCapabilities, rate: nat, bits: nat)
    ensures JudgeCompatibility(caps, rate, bits) == Compatible <==> caps.known && caps.Supports(rate, bits)
  {
  }

  // ----- Honest answers exist -----

  // What a device answers when everything works, at the given clocks.
  function HonestAnswers(d: Device, cfg: Configuration, clock: int, wallClock: int): Answers {
    var c := Choose(Candidates(cfg.sampleRate, cfg.bitDepth, d.format.channels, d.format.channelMask),
                    DriverAnswers(d));
    Answers(
      Reply(RESULT_OK, d.state), true, clock, clock, clock, clock, wallClock,
      RESULT_OK,
      ExclusiveAnswers(Reply(RESULT_OK, d.exclusiveAllowed), RESULT_OK, Reply(RESULT_OK, false)),
      ApplyAnswers(Reply(RESULT_OK,
                   d.format), DriverAnswers(d), RESULT_OK, Reply(RESULT_OK, if c.Chosen? then c.format else d.format)),
      Reply(RESULT_OK, d.format), DriverAnswers(d),
      Reply(RESULT_OK, d.state), RESULT_OK, Reply(RESULT_OK, Disabled), RESULT_OK, Reply(RESULT_OK, d.whenEnabled))
  }

  lemma HonestyIsPossible(d: Device, cfg: Configuration, clock: int, wallClock: int)
    ensures Honest(d, cfg, HonestAnswers(d, cfg, clock, wallClock))
  {
    hide Choose, Candidates;
  }

  // ----- Devices of one rate -----

  function OneRate(rate: nat): AudioFormat -> bool { (f: AudioFormat) => f.sampleRate == rate }

  // The driver admits formats at this rate only.
  ghost predicate AdmitsOnly(d: Device, rate: nat) { forall f: AudioFormat :: d.supports(f) <==> f.sampleRate == rate }

  lemma OneRateVerdict(d: Device, cfg: Configuration, rate: nat)
    requires AdmitsOnly(d, rate) && IsSupportedSampleRate(rate)
    requires IsSupportedSampleRate(cfg.sampleRate) && IsSupportedBitDepth(cfg.bitDepth)
    ensures if cfg.sampleRate == rate then Verdict(d, cfg) == Compatible else Incompatible(Verdict(d, cfg))
  {
    OneRateAdmits(d, rate, 16);
    OneRateAdmits(d, rate, cfg.bitDepth);
    if cfg.sampleRate != rate {
      OthersNotAdmitted(d, rate, cfg);
    }
    assert SUPPORTED_BIT_DEPTHS[0] == 16;
    DriverAnswersAll(d);
    hide Probe, SomeCandidate, IsSupportedSampleRate, AllAnswered, DriverAnswers, AdmitsOnly;
    ProbeSupports(d.format, DriverAnswers(d), rate, 16);
    ProbeSupports(d.format, DriverAnswers(d), cfg.sampleRate, cfg.bitDepth);
    hide IsSupportedBitDepth;
  }

  lemma OneRateAdmits(d: Device, rate: nat, bits: nat)
    requires AdmitsOnly(d, rate) && IsSupportedBitDepth(bits)
    ensures SomeCandidate(rate, bits, d.format, DriverAnswers(d))
  {
    var formats := Candidates(rate, bits, d.format.channels, d.format.channelMask);
    assert bits == 16 || bits == 24 || bits == 32;
    assert formats != [] && formats[0] in formats && formats[0].sampleRate == rate;
    assert DriverAnswers(d)(formats[0]).value;
  }

  lemma OthersNotAdmitted(d: Device, rate: nat, cfg: Configuration)
    requires AdmitsOnly(d, rate) && cfg.sampleRate != rate
    ensures !SomeCandidate(cfg.sampleRate, cfg.bitDepth, d.format, DriverAnswers(d))
  {
    var formats := Candidates(cfg.sampleRate, cfg.bitDepth, d.format.channels, d.format.channelMask);
    assert forall f :: f in formats ==> f.Matches(cfg.sampleRate, cfg.bitDepth);
    assert forall f :: f in formats ==> !DriverAnswers(d)(f).value;
    hide Candidates;
  }
}
