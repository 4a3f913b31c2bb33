// Repeated full scans reach a fixed point (src/core/WatchdogEngine.cpp).

module Convergence {
  import opened Text
  import opened AudioModel
  import opened Capabilities
  import opened Configurations
  import opened Policies
  import opened EndpointPolicy
  import opened EndpointFacts
  import opened Worlds

  // ----- One device -----

  function FullVisit(cfg: Configuration, ep: AudioEndpoint, s: Slice, a: Answers): Visit {
    VisitEndpoint(FullScan, cfg, true, ep, s, a)
  }

  function DeviceAfter(d: Device, v: Visit): Device { if v.Visited? then WrittenAll(d, v.writes) else d }

  function SliceAfter(s: Slice, v: Visit): Slice { if v.Visited? then v.slice else s }

  function WritesOf(v: Visit): seq<DeviceWrite> { if v.Visited? then v.writes else [] }

  predicate NameSettled(d: Device, cfg: Configuration, id: string) {
    var wanted := CustomDeviceName(cfg.deviceNames, id);
    wanted == "" || d.description == "" || d.description == wanted
  }

  predicate ExclusiveSettled(d: Device, cfg: Configuration) { !cfg.exclusiveModeProtection || !d.exclusiveAllowed }

  predicate LeftEnabled(s: Slice) { s.record.Some? && s.record.value.leftEnabled }

  predicate FormatSettled(d: Device, s: Slice, cfg: Configuration) {
    d.state == Active && cfg.formatStandardization ==>
      || d.format.Matches(cfg.sampleRate, cfg.bitDepth)
      || (Verdict(d, cfg) != Compatible
          && (!DisablePolicyConfirmed(cfg) || Verdict(d, cfg) == UnknownCompatibility || LeftEnabled(s)))
  }

  // A full scan has nothing left to do on the device.
  predicate Settled(id: string, d: Device, s: Slice, cfg: Configuration) {
    || !Monitored(cfg, d.flow)
    || d.state == NotPresent
    || (d.state == Disabled && !DisabledByUs(s))
    || (NameSettled(d, cfg, id)
        && if d.state == Disabled then DisablePolicyConfirmed(cfg) && Incompatible(Verdict(d, cfg))
           else ExclusiveSettled(d, cfg) && FormatSettled(d, s, cfg))
  }

  // No disable of it is being held back by the loop guard.
  predicate NotWaiting(s: Slice, t: int) {
    GuardRecord(s, t).leftEnabled || CountRecent(GuardRecord(s, t).history, t) < MAX_DISABLES_PER_WINDOW
  }

  predicate Known(s: Slice, d: Device) { UpToDate(s, d) && GoodRecord(s) && SoundDevice(d) }

  // ----- Phases on an honest device -----

  lemma SeenAsIs(ep: AudioEndpoint, d: Device, s: Slice, cfg: Configuration, a: Answers)
    requires Shows(ep, d) && Honest(d, cfg, a)
    ensures Seen(ep, s, true, a) == ep
  {
  }

  lemma NameEffect(ep: AudioEndpoint, d: Device, cfg: Configuration, s: Slice, a: Answers)
    requires Shows(ep, d) && Honest(d, cfg, a)
    ensures var (s1, w) := NamePhase(ep, cfg, true, true, s, a);
            && s1 == s && (NameSettled(d, cfg, ep.id) <==> w == [])
            && (w == [] || exists text ::
                  w == [WriteDescription(ep.id, text)] && NameSettled(d.(description := text), cfg, ep.id))
  {
    hide CustomDeviceName;
    var wanted := CustomDeviceName(cfg.deviceNames, ep.id);
    if !NameSettled(d, cfg, ep.id) {
      assert NamePhase(ep, cfg, true, true, s, a).1 == [WriteDescription(ep.id, wanted)];
    }
  }

  lemma ExclusiveEffect(ep: AudioEndpoint, d: Device, cfg: Configuration, s: Slice, a: Answers)
    requires Honest(d, cfg, a)
    ensures var (s1, w) := ExclusivePhase(ep, cfg, true, s, a);
            && s1.record == s.record && s1.caps == s.caps
            && w == (if ExclusiveSettled(d, cfg) then [] else [WriteExclusive(ep.id)])
  {
  }

  // The device after its name and its exclusive mode were put right.
  ghost predicate PutRight(d: Device, d': Device, cfg: Configuration, id: string) {
    && d' == d.(description := d'.description, exclusiveAllowed := d'.exclusiveAllowed)
    && NameSettled(d', cfg, id)
  }

  lemma PutRightKeeps(d: Device, d': Device, cfg: Configuration, id: string)
    requires PutRight(d, d', cfg, id)
    ensures FreshCapabilities(d') == FreshCapabilities(d) && d'.format == d.format && d'.state == d.state
    ensures d'.flow == d.flow
    ensures DriverAnswers(d') == DriverAnswers(d) && Verdict(d', cfg) == Verdict(d, cfg)
  {
    assert d'.supports == d.supports;
    hide Probe;
  }

  lemma WrittenTwice(d: Device, a: seq<DeviceWrite>, b: seq<DeviceWrite>)
    requires |b| <= 1
    ensures WrittenAll(d, a + b) == if b == [] then WrittenAll(d, a) else Written(WrittenAll(d, a), b[0])
  {
    if b == [] {
      assert a + b == a;
    } else {
      assert (a + b)[..|a|] == a;
    }
  }

  lemma NameWritten(ep: AudioEndpoint, d: Device, cfg: Configuration, s: Slice, a: Answers)
    requires Shows(ep, d) && Honest(d, cfg, a)
    ensures PutRight(d, WrittenAll(d, NamePhase(ep, cfg, true, true, s, a).1), cfg, ep.id)
    ensures WrittenAll(d, NamePhase(ep, cfg, true, true, s, a).1).exclusiveAllowed == d.exclusiveAllowed
  {
    NameEffect(ep, d, cfg, s, a);
    var w := NamePhase(ep, cfg, true, true, s, a).1;
    hide NamePhase, CustomDeviceName, Honest;
    if w == [] {
      assert WrittenAll(d, w) == d;
    } else {
      var text :| w == [WriteDescription(ep.id, text)] && NameSettled(d.(description := text), cfg, ep.id);
      assert WrittenAll(d, []) == d && w[..0] == [];
    }
  }

  // Both early phases together.
  lemma EarlyWritten(ep: AudioEndpoint, d: Device, cfg: Configuration, s: Slice, a: Answers)
    requires Shows(ep, d) && Honest(d, cfg, a)
    ensures var w := NamePhase(ep, cfg, true, true, s, a).1 + ExclusivePhase(ep, cfg, true, s, a).1;
            var d' := WrittenAll(d, w);
            && PutRight(d, d', cfg, ep.id) && ExclusiveSettled(d', cfg)
            && (w == [] <==> NameSettled(d, cfg, ep.id) && ExclusiveSettled(d, cfg))
  {
    NameWritten(ep, d, cfg, s, a);
    NameEffect(ep, d, cfg, s, a);
    ExclusiveEffect(ep, d, cfg, s, a);
    var w1, w2 := NamePhase(ep, cfg, true, true, s, a).1, ExclusivePhase(ep, cfg, true, s, a).1;
    hide NamePhase, ExclusivePhase, CustomDeviceName, Honest;
    WrittenTwice(d, w1, w2);
  }

  // ----- The format phase of an honest, active device -----

  // What the phase leaves: the device at the target, reported and left as it
  // is, or disabled and recorded.
  ghost predicate FormatDone(id: string, d: Device, s: Slice, cfg: Configuration, e: Effect) {
    && UpToDate(e.slice, d) && (e.slice.record.Some? ==> e.slice.record.value.id != "")
    && if e.writes == [] then FormatSettled(d, e.slice, cfg)
       else
         || (e.writes == [WriteEnabled(id, false)] && DisabledByUs(e.slice)
             && DisablePolicyConfirmed(cfg) && Incompatible(Verdict(d, cfg)))
         || (exists f :: e.writes == [WriteFormat(id, f)] && f.Matches(cfg.sampleRate, cfg.bitDepth)
                         && !DisabledByUs(e.slice)
                         && FreshCapabilities(d.(format := f)) == FreshCapabilities(d))
  }

  lemma CachedIsFresh(d: Device, s: Slice, cfg: Configuration, a: Answers)
    requires Honest(d, cfg, a) && UpToDate(s, d)
    ensures var (s1, caps) := CapabilitiesFor(s, a.current.value, a.probe);
            caps == FreshCapabilities(d) && s1.record == s.record && UpToDate(s1, d)
  {
    hide Probe;
  }

  lemma GuardDone(ep: AudioEndpoint, d: Device, s: Slice, cfg: Configuration, r: DeviceReport, a: Answers)
    requires d.state == Active && Honest(d, cfg, a) && UpToDate(s, d) && GoodRecord(s) && ep.id != ""
    requires DisablePolicyConfirmed(cfg) && Incompatible(Verdict(d, cfg)) && r.capabilities == FreshCapabilities(d)
    requires NotWaiting(s, a.wallClock)
    requires !d.format.Matches(cfg.sampleRate, cfg.bitDepth)
    ensures FormatDone(ep.id, d, s, cfg, GuardPhase(ep, cfg, s, r, a))
  {
    hide Prune, CountRecent, FreshCapabilities, JudgeCompatibility, DisablePolicyConfirmed;
    assert Answered(a.liveBeforeDisable, d.state) && Answered(a.stateAfterDisable, Disabled) && Succeeded(a.disable);
    hide Honest;
  }

  lemma FormatPhaseDone(ep: AudioEndpoint, d: Device, s: Slice, cfg: Configuration, a: Answers)
    requires Shows(ep, d) && d.state == Active && Honest(d, cfg, a) && UpToDate(s, d) && GoodRecord(s)
    requires Enforcing(cfg) && cfg.formatStandardization && (FormatSettled(d, s, cfg) || NotWaiting(s, a.wallClock))
    ensures FormatDone(ep.id, d, s, cfg, FormatPhase(ep, cfg, true, false, true, s, NewReport(ep), a))
    ensures FormatSettled(d, s, cfg) ==> FormatPhase(ep, cfg, true, false, true, s, NewReport(ep), a).writes == []
  {
    HonestFormat(ep.id, d, cfg, a);
    var (out, writes) := JudgeAndApply(ep.id, cfg.sampleRate, cfg.bitDepth, true, a.apply);
    var report := FormatReport(NewReport(ep), out, false);
    if out.result == Unsupported {
      IncompatibleDone(ep, d, s, cfg, report, a);
    }
    hide JudgeAndApply, IncompatiblePhase, FreshCapabilities, JudgeCompatibility, DisablePolicyConfirmed, Honest;
    hide GuardRecord, CountRecent;
  }

  lemma IncompatibleDone(ep: AudioEndpoint, d: Device, s: Slice, cfg: Configuration, r: DeviceReport, a: Answers)
    requires Shows(ep, d) && d.state == Active && Honest(d, cfg, a) && UpToDate(s, d) && GoodRecord(s)
    requires Enforcing(cfg) && (FormatSettled(d, s, cfg) || NotWaiting(s, a.wallClock)) && cfg.formatStandardization
    requires !d.format.Matches(cfg.sampleRate, cfg.bitDepth) && Verdict(d, cfg) != Compatible
    ensures FormatDone(ep.id, d, s, cfg, IncompatiblePhase(ep, cfg, true, true, s, r, a))
    ensures FormatSettled(d, s, cfg) ==> IncompatiblePhase(ep, cfg, true, true, s, r, a).writes == []
  {
    CachedIsFresh(d, s, cfg, a);
    var (s1, caps) := CapabilitiesFor(s, a.current.value, a.probe);
    var judged := Judged(r, caps, cfg.sampleRate, cfg.bitDepth);
    assert judged.compatibility == Verdict(d, cfg) && judged.capabilities == caps;
    hide CapabilitiesFor, FreshCapabilities, JudgeCompatibility, Judged, Prune, CountRecent;
    if DisablePolicyConfirmed(cfg) && Verdict(d, cfg) != UnknownCompatibility {
      if LeftEnabled(s) {
        LeftEnabledDone(ep, d, s1, cfg, judged, a);
      } else {
        SameGuard(s, s1, a.wallClock);
        GuardDone(ep, d, s1, cfg, judged, a);
      }
    }
    hide GuardPhase;
  }

  lemma LeftEnabledDone(ep: AudioEndpoint, d: Device, s: Slice, cfg: Configuration, r: DeviceReport, a: Answers)
    requires UpToDate(s, d) && GoodRecord(s) && LeftEnabled(s) && Verdict(d, cfg) != Compatible
    ensures FormatDone(ep.id, d, s, cfg, GuardPhase(ep, cfg, s, r, a))
    ensures GuardPhase(ep, cfg, s, r, a).writes == []
  {
    hide Prune, CountRecent, FreshCapabilities, JudgeCompatibility, DisablePolicyConfirmed;
  }

  // ----- One device, one full scan -----

  // Enabled again by the last scan, its other settings not looked at yet.
  predicate JustEnabled(d: Device, s: Slice) { (d.state == Active || d.state == Unplugged) && s.record == None }

  lemma JustEnabledNotWaiting(s: Slice, t: int)
    requires s.record == None
    ensures NotWaiting(s, t)
  {
  }

  lemma SettledStays(ep: AudioEndpoint, d: Device, s: Slice, cfg: Configuration, a: Answers)
    requires Settled(ep.id, d, s, cfg) && Known(s, d) && Shows(ep, d) && Honest(d, cfg, a) && Enforcing(cfg)
    ensures var v := FullVisit(cfg, ep, s, a);
            WritesOf(v) == [] && Settled(ep.id, d, SliceAfter(s, v), cfg) && Known(SliceAfter(s, v), d)
  {
    SeenAsIs(ep, d, s, cfg, a);
    hide Seen, Monitored, Modify, NameSettled, ExclusiveSettled, FormatSettled, UpToDate;
    if Monitored(cfg, ep.flow) && Considered(ep, s) {
      assert a.canModify;
      if d.state == Disabled {
        KeptDisabled(ep, d, s, cfg, a);
      } else {
        SettledModify(ep, d, s, cfg, a);
      }
    }
    hide Honest;
  }

  lemma KeptDisabled(ep: AudioEndpoint, d: Device, s: Slice, cfg: Configuration, a: Answers)
    requires d.state == Disabled && DisabledByUs(s) && UpToDate(s, d) && Shows(ep, d) && Honest(d, cfg, a)
    requires Considered(ep, s)
    requires NameSettled(d, cfg, ep.id) && DisablePolicyConfirmed(cfg) && Incompatible(Verdict(d, cfg))
    ensures var v := Modify(ep, s, cfg, true, false, true, a); v.writes == [] && v.slice == s
  {
    NameEffect(ep, d, cfg, s, a);
    hide NamePhase, NameSettled, FreshCapabilities, JudgeCompatibility, DisablePolicyConfirmed, Honest, Incompatible;
    hide ExclusivePhase, FormatPhase;
  }

  lemma SettledModify(ep: AudioEndpoint, d: Device, s: Slice, cfg: Configuration, a: Answers)
    requires (d.state == Active || d.state == Unplugged) && Known(s, d) && Shows(ep, d) && Honest(d, cfg, a)
    requires Enforcing(cfg)
    requires Considered(ep, s) && NameSettled(d, cfg, ep.id) && ExclusiveSettled(d, cfg) && FormatSettled(d, s, cfg)
    ensures var v := Modify(ep, s, cfg, true, false, true, a);
            v.writes == [] && FormatSettled(d, v.slice, cfg) && Known(v.slice, d)
  {
    NameEffect(ep, d, cfg, s, a);
    ExclusiveEffect(ep, d, cfg, s, a);
    var s2 := ExclusivePhase(ep, cfg, true, s, a).0;
    if d.state == Active && cfg.formatStandardization {
      FormatPhaseDone(ep, d, s2, cfg, a);
    }
    hide NamePhase, ExclusivePhase, FormatPhase, DisabledPhase, NameSettled, ExclusiveSettled, Honest, Verdict;
    hide FreshCapabilities, DisablePolicyConfirmed;
  }

  // An enabled device that is not held back is settled by one scan.
  lemma EnabledSettles(ep: AudioEndpoint, d: Device, s: Slice, cfg: Configuration, a: Answers)
    requires (d.state == Active || d.state == Unplugged) && Known(s, d) && Shows(ep, d) && Honest(d, cfg, a)
    requires Enforcing(cfg)
    requires NotWaiting(s, a.wallClock)
    ensures var v := FullVisit(cfg, ep, s, a);
            Settled(ep.id, DeviceAfter(d, v), SliceAfter(s, v), cfg) && Known(SliceAfter(s, v), DeviceAfter(d, v))
  {
    SeenAsIs(ep, d, s, cfg, a);
    hide Seen, Monitored, Modify, NameSettled, ExclusiveSettled, FormatSettled, UpToDate;
    if Monitored(cfg, ep.flow) {
      assert a.canModify && Considered(ep, s);
      EnabledModify(ep, d, s, cfg, a);
    }
    hide Honest, NotWaiting;
  }

  lemma EnabledModify(ep: AudioEndpoint, d: Device, s: Slice, cfg: Configuration, a: Answers)
    requires (d.state == Active || d.state == Unplugged) && Known(s, d) && Shows(ep, d) && Honest(d, cfg, a)
    requires Enforcing(cfg)
    requires Considered(ep, s) && NotWaiting(s, a.wallClock)
    ensures var v := Modify(ep, s, cfg, true, false, true, a);
            var d' := WrittenAll(d, v.writes);
            Settled(ep.id, d', v.slice, cfg) && Known(v.slice, d')
  {
    hide NamePhase, ExclusivePhase, FormatPhase, DisabledPhase, GuardRecord, FormatDone, FreshCapabilities;
    hide JudgeCompatibility;
    hide DisablePolicyConfirmed, Settled, NameSettled, ExclusiveSettled, FormatSettled, CountRecent, Modify;
    NameEffect(ep, d, cfg, s, a);
    ExclusiveEffect(ep, d, cfg, s, a);
    EarlyWritten(ep, d, cfg, s, a);
    ModifyParts(ep, s, cfg, a);
    var (s1, w1) := NamePhase(ep, cfg, true, true, s, a);
    var (s2, w2) := ExclusivePhase(ep, cfg, true, s1, a);
    var d2 := WrittenAll(d, w1 + w2);
    PutRightKeeps(d, d2, cfg, ep.id);
    if d.state == Active && cfg.formatStandardization {
      SameGuard(s, s2, a.wallClock);
      FormatPhaseDone(ep, d, s2, cfg, a);
      hide Honest;
      FormatLeaves(ep.id, d, d2, w1 + w2, s2, cfg, FormatPhase(ep, cfg, true, false, true, s2, NewReport(ep), a));
    } else {
      hide Honest;
      OtherLeaves(ep.id, d, d2, s, s2, cfg);
    }
  }

  lemma ModifyParts(ep: AudioEndpoint, s: Slice, cfg: Configuration, a: Answers)
    requires Considered(ep, s)
    ensures var v := Modify(ep, s, cfg, true, false, true, a);
            var (s1, w1) := NamePhase(ep, cfg, true, true, s, a);
            var (s2, w2) := ExclusivePhase(ep, cfg, true, s1, a);
            var f := FormatPhase(ep, cfg, true, false, true, s2, NewReport(ep), a);
            && (ep.state == Disabled ==>
                  var g := DisabledPhase(ep, s.record.value, cfg, true, true, s1, NewReport(ep), a);
                  v.slice == g.slice && v.writes == w1 + g.writes)
            && (ep.state == Active && cfg.formatStandardization ==>
                  v.slice == f.slice && v.writes == w1 + w2 + f.writes)
            && (ep.state != Disabled && !(ep.state == Active && cfg.formatStandardization) ==>
                  v.slice == s2 && v.writes == w1 + w2)
  {
    hide NamePhase, ExclusivePhase, FormatPhase, DisabledPhase;
  }

  lemma OtherLeaves(id: string, d: Device, d2: Device, s: Slice, s2: Slice, cfg: Configuration)
    requires (d.state == Active || d.state == Unplugged) && !(d.state == Active && cfg.formatStandardization)
    requires Known(s, d)
    requires PutRight(d, d2, cfg, id) && ExclusiveSettled(d2, cfg) && FreshCapabilities(d2) == FreshCapabilities(d)
    requires s2.record == s.record && s2.caps == s.caps
    ensures Settled(id, d2, s2, cfg) && Known(s2, d2)
  {
    hide FreshCapabilities, JudgeCompatibility, DisablePolicyConfirmed, CustomDeviceName, ExclusiveSettled, Monitored;
  }

  // The device and the memory after the format phase.
  lemma FormatLeaves(id: string, d: Device, d2: Device, early: seq<DeviceWrite>, s: Slice, cfg: Configuration,
                     e: Effect)
    requires d.state == Active && cfg.formatStandardization && SoundDevice(d)
    requires d2 == WrittenAll(d, early) && PutRight(d, d2, cfg, id) && ExclusiveSettled(d2, cfg)
    requires FreshCapabilities(d2) == FreshCapabilities(d) && Verdict(d2, cfg) == Verdict(d, cfg)
    requires FormatDone(id, d, s, cfg, e)
    ensures var d' := WrittenAll(d, early + e.writes);
            Settled(id, d', e.slice, cfg) && Known(e.slice, d')
  {
    hide FreshCapabilities, DisablePolicyConfirmed, Settled, Known, PutRight, ExclusiveSettled, Verdict, FormatSettled;
    hide UpToDate, DisabledByUs;
    hide Incompatible, SoundDevice;
    if e.writes == [] {
      WrittenTwice(d, early, []);
      UnwrittenLeaves(id, d, d2, s, cfg, e);
    } else if e.writes == [WriteEnabled(id, false)] {
      WrittenTwice(d, early, [WriteEnabled(id, false)]);
      DisabledLeaves(id, d, d2, s, cfg, e);
    } else {
      var f :| e.writes == [WriteFormat(id, f)] && f.Matches(cfg.sampleRate, cfg.bitDepth) && !DisabledByUs(e.slice)
               && FreshCapabilities(d.(format := f)) == FreshCapabilities(d);
      WrittenTwice(d, early, [WriteFormat(id, f)]);
      AppliedLeaves(id, d, d2, s, cfg, e, f);
    }
  }

  lemma UnwrittenLeaves(id: string, d: Device, d2: Device, s: Slice, cfg: Configuration, e: Effect)
    requires d.state == Active && SoundDevice(d) && PutRight(d, d2, cfg, id) && ExclusiveSettled(d2, cfg)
    requires FreshCapabilities(d2) == FreshCapabilities(d) && Verdict(d2, cfg) == Verdict(d, cfg)
    requires FormatDone(id, d, s, cfg, e) && e.writes == []
    ensures Settled(id, d2, e.slice, cfg) && Known(e.slice, d2)
  {
    hide FreshCapabilities, JudgeCompatibility, DisablePolicyConfirmed, NameSettled, ExclusiveSettled, Monitored;
  }

  lemma DisabledLeaves(id: string, d: Device, d2: Device, s: Slice, cfg: Configuration, e: Effect)
    requires SoundDevice(d) && PutRight(d, d2, cfg, id)
    requires FreshCapabilities(d2) == FreshCapabilities(d) && Verdict(d2, cfg) == Verdict(d, cfg)
    requires FormatDone(id, d, s, cfg, e) && e.writes == [WriteEnabled(id, false)]
    ensures var d' := d2.(state := Disabled); Settled(id, d', e.slice, cfg) && Known(e.slice, d')
  {
    var d' := d2.(state := Disabled);
    SameDriver(d2, d', cfg);
    hide FreshCapabilities, JudgeCompatibility, DisablePolicyConfirmed, Monitored, CustomDeviceName, ExclusiveSettled;
    hide Incompatible;
  }

  lemma AppliedLeaves(id: string, d: Device, d2: Device, s: Slice, cfg: Configuration, e: Effect, f: AudioFormat)
    requires d.state == Active && SoundDevice(d) && PutRight(d, d2, cfg, id) && ExclusiveSettled(d2, cfg)
    requires FormatDone(id, d, s, cfg, e) && f.Matches(cfg.sampleRate, cfg.bitDepth) && !DisabledByUs(e.slice)
    requires FreshCapabilities(d.(format := f)) == FreshCapabilities(d)
    ensures var d' := d2.(format := f); Settled(id, d', e.slice, cfg) && Known(e.slice, d')
  {
    var d' := d2.(format := f);
    SameDriver(d.(format := f), d', cfg);
    hide FreshCapabilities, JudgeCompatibility, DisablePolicyConfirmed, Monitored, CustomDeviceName;
  }

  lemma SameDriver(d: Device, d': Device, cfg: Configuration)
    requires d'.supports == d.supports && d'.format == d.format
    ensures FreshCapabilities(d') == FreshCapabilities(d) && Verdict(d', cfg) == Verdict(d, cfg)
  {
    assert DriverAnswers(d') == DriverAnswers(d);
    hide Probe;
  }

  // Any device, from any state: one full scan settles it or just enables it.
  lemma FirstScan(ep: AudioEndpoint, d: Device, s: Slice, cfg: Configuration, a: Answers)
    requires Known(s, d) && Shows(ep, d) && Honest(d, cfg, a) && Enforcing(cfg) && NotWaiting(s, a.wallClock)
    ensures var v := FullVisit(cfg, ep, s, a);
            var d', s' := DeviceAfter(d, v), SliceAfter(s, v);
            (Settled(ep.id, d', s', cfg) || JustEnabled(d', s')) && Known(s', d')
  {
    if d.state == Active || d.state == Unplugged {
      EnabledSettles(ep, d, s, cfg, a);
      hide FullVisit;
    } else {
      SeenAsIs(ep, d, s, cfg, a);
      hide Seen, Monitored, Modify, NameSettled, ExclusiveSettled, FormatSettled, NotWaiting;
      if d.state == Disabled && DisabledByUs(s) && Monitored(cfg, ep.flow) {
        assert a.canModify && Considered(ep, s);
        DisabledModify(ep, d, s, cfg, a);
      }
      hide Honest, FreshCapabilities;
    }
  }

  lemma DisabledModify(ep: AudioEndpoint, d: Device, s: Slice, cfg: Configuration, a: Answers)
    requires d.state == Disabled && DisabledByUs(s) && Known(s, d) && Shows(ep, d) && Honest(d, cfg, a)
    requires Enforcing(cfg)
    requires Considered(ep, s)
    ensures var v := Modify(ep, s, cfg, true, false, true, a);
            var d' := WrittenAll(d, v.writes);
            (Settled(ep.id, d', v.slice, cfg) || JustEnabled(d', v.slice)) && Known(v.slice, d')
  {
    hide FreshCapabilities, Verdict, DisablePolicyConfirmed, Settled, DisabledPhase, NamePhase, ExclusivePhase;
    hide FormatPhase, Modify;
    hide Incompatible, UpToDate, PutRight;
    NameEffect(ep, d, cfg, s, a);
    NameWritten(ep, d, cfg, s, a);
    ModifyParts(ep, s, cfg, a);
    var w1 := NamePhase(ep, cfg, true, true, s, a).1;
    var d1 := WrittenAll(d, w1);
    DisabledPhaseDone(ep, d, s, cfg, NewReport(ep), a);
    var e := DisabledPhase(ep, s.record.value, cfg, true, true, s, NewReport(ep), a);
    hide Honest, JustEnabled, Known;
    if e.writes == [] {
      WrittenTwice(d, w1, []);
      DisabledStays(ep.id, d, d1, s, cfg);
    } else {
      WrittenTwice(d, w1, [WriteEnabled(ep.id, true)]);
      EnabledLeaves(ep.id, d, d1, s, cfg);
    }
  }

  // Kept disabled because it is incompatible, or enabled again.
  lemma DisabledPhaseDone(ep: AudioEndpoint, d: Device, s: Slice, cfg: Configuration, r: DeviceReport, a: Answers)
    requires DisabledByUs(s) && UpToDate(s, d) && Honest(d, cfg, a) && SoundDevice(d)
    ensures var e := DisabledPhase(ep, s.record.value, cfg, true, true, s, r, a);
            if e.writes == [] then e.slice == s && DisablePolicyConfirmed(cfg) && Incompatible(Verdict(d, cfg))
            else e.writes == [WriteEnabled(ep.id, true)] && e.slice == s.(record := None)
  {
    assert Succeeded(a.enable) && Answered(a.stateAfterEnable, d.whenEnabled);
    hide Honest, FreshCapabilities, JudgeCompatibility, DisablePolicyConfirmed, VerdictReason, WhyEnable;
  }

  lemma DisabledStays(id: string, d: Device, d1: Device, s: Slice, cfg: Configuration)
    requires d.state == Disabled && PutRight(d, d1, cfg, id) && DisablePolicyConfirmed(cfg)
    requires Incompatible(Verdict(d, cfg)) && Known(s, d)
    ensures Settled(id, d1, s, cfg) && Known(s, d1)
  {
    PutRightKeeps(d, d1, cfg, id);
    hide Verdict, FreshCapabilities, DisablePolicyConfirmed, Monitored, CustomDeviceName, Incompatible;
  }

  lemma EnabledLeaves(id: string, d: Device, d1: Device, s: Slice, cfg: Configuration)
    requires PutRight(d, d1, cfg, id) && Known(s, d)
    ensures var d2, s2 := d1.(state := d1.whenEnabled), s.(record := None);
            JustEnabled(d2, s2) && Known(s2, d2)
  {
    PutRightKeeps(d, d1, cfg, id);
    SameDriver(d1, d1.(state := d1.whenEnabled), cfg);
    hide FreshCapabilities, CustomDeviceName;
  }
}
