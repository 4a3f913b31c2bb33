// Which steps the user is told of (src/core/WatchdogEngine.cpp: addEvent and
// its callers), from the calls made and their answers.

module EventMeaning {
  import opened Text
  import opened AudioModel
  import opened Configurations
  import opened DeviceStateStores
  import opened Policies
  import opened EndpointPolicy
  import opened EngineModel
  import opened EndpointFacts
  import opened EngineRuns
  import opened FormatMeaning
  import opened LoopGuard
  import opened StepMeaning
  import opened TrayEvents

  // The step asked Windows to disable the device, and that did not work.
  predicate FailedDisable(v: Visit, ep: AudioEndpoint, a: Answers) {
    v.Visited? && WriteEnabled(ep.id, false) in v.writes && !SaysDisabled(a)
  }

  // The step reports that the device waits, and not for the first time in
  // these words.
  predicate NewWait(v: Visit, s: Slice) {
    && v.Visited? && v.report.Some? && v.report.value.reason.WaitingForWindow?
    && s.loopNotice != Some(v.report.value.reason)
  }

  // What an active device is found to be.
  lemma FiveCases(cfg: Configuration, a: Answers)
    ensures || !Succeeded(a.apply.current.code)
            || AtTarget(cfg.sampleRate, cfg.bitDepth, a.apply.current)
            || Unfit(cfg, a)
            || (exists f :: Fitting(cfg, a, f))
            || (OffTarget(cfg.sampleRate, cfg.bitDepth, a.apply.current)
                && exists f :: FirstFailed(f, cfg.sampleRate, cfg.bitDepth, a.apply.current.value, a.apply.supports))
  {
    ChoiceMeans(cfg.sampleRate, cfg.bitDepth, a.apply.current.value, a.apply.supports);
    hide Choose, Candidates, AllRefused, FirstAccepted, FirstFailed;
    var current := a.apply.current.value;
    var c := Choose(Candidates(cfg.sampleRate, cfg.bitDepth, current.channels, current.channelMask), a.apply.supports);
    if c.Chosen? && OffTarget(cfg.sampleRate, cfg.bitDepth, a.apply.current) {
      assert Fitting(cfg, a, c.format);
    }
  }

  // Only a device held back by the guard is reported as waiting.
  lemma WaitingMeans(d: DeviceReport, d0: DeviceReport, cfg: Configuration, hasAdmin: bool, may: bool, backoff: bool,
                     s: Slice, a: Answers)
    requires d0.reason == NoReason
    requires ReportsFormat(d, d0, UnfitReport(WithFormat(d0, a), cfg, hasAdmin, may, s, a), cfg, may, backoff, a)
    ensures d.reason.WaitingForWindow? <==> Condemned(cfg, hasAdmin, may, s, a) && Held(s, a.wallClock)
    ensures AskedToDisable(cfg, hasAdmin, may, s, a) ==>
              d.action == if SaysDisabled(a) then ActionDisabled else ActionFailed
  {
    FiveCases(cfg, a);
    UnfitWaiting(WithFormat(d0, a), cfg, hasAdmin, may, s, a);
    CasesApart(cfg, a);
    hide UnfitReport, Unfit, Fitting, FirstFailed, AtTarget, OffTarget, Held, Tells, Confirmed, Recent;
  }

  lemma CasesApart(cfg: Configuration, a: Answers)
    ensures Unfit(cfg, a) ==>
              && Succeeded(a.apply.current.code) && !AtTarget(cfg.sampleRate, cfg.bitDepth, a.apply.current)
              && (forall f :: !Fitting(cfg, a, f))
              && forall f :: !FirstFailed(f, cfg.sampleRate, cfg.bitDepth, a.apply.current.value, a.apply.supports)
  {
  }

  lemma UnfitWaiting(d: DeviceReport, cfg: Configuration, hasAdmin: bool, may: bool, s: Slice, a: Answers)
    ensures var r := UnfitReport(d, cfg, hasAdmin, may, s, a);
            && (Unfit(cfg, a) ==>
                  (r.reason.WaitingForWindow? <==> Condemned(cfg, hasAdmin, may, s, a) && Held(s, a.wallClock)))
            && (AskedToDisable(cfg, hasAdmin, may, s, a) ==>
                  r.action == if SaysDisabled(a) then ActionDisabled else ActionFailed)
            && (Condemned(cfg, hasAdmin, may, s, a) && Held(s, a.wallClock) ==> r.action == ActionLeftEnabled)
  {
    hide Unfit, Recent, Probe, Decimal;
  }

  lemma ReportKeepsId(d: DeviceReport, d0: DeviceReport, cfg: Configuration, hasAdmin: bool, may: bool, backoff: bool,
                      s: Slice, a: Answers)
    requires ReportsFormat(d, d0, UnfitReport(WithFormat(d0, a), cfg, hasAdmin, may, s, a), cfg, may, backoff, a)
    ensures d.id == d0.id && d.name == d0.name && d.flow == d0.flow && d.isDefault == d0.isDefault
    ensures Condemned(cfg, hasAdmin, may, s, a) && Held(s, a.wallClock) ==> d.action == ActionLeftEnabled
  {
    FiveCases(cfg, a);
    UnfitWaiting(WithFormat(d0, a), cfg, hasAdmin, may, s, a);
    UnfitKeepsId(WithFormat(d0, a), cfg, hasAdmin, may, s, a);
    hide UnfitReport, Unfit, Fitting, FirstFailed, AtTarget, OffTarget, Held, Tells, Confirmed, Recent;
  }

  // Every report is one of its endpoint.
  lemma ReportNames(kind: ScanKind, cfg: Configuration, hasAdmin: bool, ep: AudioEndpoint, s: Slice, a: Answers)
    requires GoodRecord(s)
    ensures var v := VisitEndpoint(kind, cfg, hasAdmin, ep, s, a);
            v.Visited? && v.report.Some? ==>
              && v.report.value.id == ep.id && v.report.value.name == ep.name && v.report.value.flow == ep.flow
              && v.report.value.isDefault == ep.isDefault
  {
    hide VisitEndpoint, ReportsFormat, UnfitReport, WithFormat, Keeps, IsEvent, MayWrite, HeldOff, StateNow;
    var v := VisitEndpoint(kind, cfg, hasAdmin, ep, s, a);
    StepMeans(kind, cfg, hasAdmin, ep, s, a);
    var state := StateNow(ep, s, hasAdmin, a);
    if v.Visited? && state == Active && cfg.formatStandardization {
      ReportKeepsId(v.report.value, BlankReport(ep, state), cfg, hasAdmin, MayWrite(kind, cfg, s, a),
                    HeldOff(kind, s, a), s, a);
    }
  }

  lemma UnfitKeepsId(d: DeviceReport, cfg: Configuration, hasAdmin: bool, may: bool, s: Slice, a: Answers)
    ensures var r := UnfitReport(d, cfg, hasAdmin, may, s, a);
            r.id == d.id && r.name == d.name && r.flow == d.flow && r.isDefault == d.isDefault
  {
    hide Recent, Probe, Confirmed;
  }

  // The visit is told to the user as what it was.
  predicate ToldAs(v: Visit, ep: AudioEndpoint, s: Slice, a: Answers)
    requires v.Visited?
  {
    && (v.event <==> VerifiedDisable(v, ep, a) || VerifiedEnable(v, ep, a) || FailedDisable(v, ep, a) || NewWait(v, s))
    && (v.event ==>
          && v.report.Some? && v.report.value.id == ep.id && v.report.value.name == ep.name
          && v.report.value.action == (if VerifiedDisable(v, ep, a) then ActionDisabled
                                       else if VerifiedEnable(v, ep, a) then ActionReenabled
                                       else if FailedDisable(v, ep, a) then ActionFailed
                                       else ActionLeftEnabled))
  }

  ghost predicate EnabledAsked(v: Visit, ep: AudioEndpoint, state: EndpointState, cfg: Configuration, hasAdmin: bool,
                               may: bool, s: Slice, a: Answers) {
    && v.Visited?
    && (WriteEnabled(ep.id, true) in v.writes <==> state == Disabled && AskedToEnable(cfg, hasAdmin, may, s))
    && (WriteEnabled(ep.id, false) in v.writes <==>
        state == Active && cfg.formatStandardization && AskedToDisable(cfg, hasAdmin, may, s, a))
  }

  lemma DisabledTold(v: Visit, ep: AudioEndpoint, cfg: Configuration, hasAdmin: bool, may: bool, backoff: bool,
                     s: Slice, a: Answers)
    requires s.record.Some? && EnabledAsked(v, ep, Disabled, cfg, hasAdmin, may, s, a)
    requires AsMeant(v, ep, Disabled, cfg, hasAdmin, may, backoff, s, a)
    ensures ToldAs(v, ep, s, a)
  {
    hide Keeps, Confirmed, Tells, Lists;
    assert !WithVerdict(BlankReport(ep, Disabled), s.record.value.capabilities, cfg).reason.WaitingForWindow?;
    hide WithVerdict;
  }

  lemma ActiveTold(v: Visit, ep: AudioEndpoint, cfg: Configuration, hasAdmin: bool, may: bool, backoff: bool, s: Slice,
                   a: Answers)
    requires EnabledAsked(v, ep, Active, cfg, hasAdmin, may, s, a) && cfg.formatStandardization
    requires AsMeant(v, ep, Active, cfg, hasAdmin, may, backoff, s, a)
    ensures ToldAs(v, ep, s, a)
  {
    hide Keeps, ReportsFormat, UnfitReport, Condemned, AskedToDisable, AskedToEnable, WithFormat;
    var d0 := BlankReport(ep, Active);
    WaitingMeans(v.report.value, d0, cfg, hasAdmin, may, backoff, s, a);
    ReportKeepsId(v.report.value, d0, cfg, hasAdmin, may, backoff, s, a);
  }

  // A step is told to the user exactly when it disabled the device or enabled
  // it, verified, or failed to disable it, or has a new wait to report; and it
  // is told as what it was.
  lemma EventIff(kind: ScanKind, cfg: Configuration, hasAdmin: bool, ep: AudioEndpoint, s: Slice, a: Answers)
    requires GoodRecord(s)
    ensures var v := VisitEndpoint(kind, cfg, hasAdmin, ep, s, a); v.Visited? ==> ToldAs(v, ep, s, a)
  {
    hide VisitEndpoint, StateNow, MayWrite, HeldOff, ToldAs, AskedToDisable, AskedToEnable;
    var v := VisitEndpoint(kind, cfg, hasAdmin, ep, s, a);
    var state, may, backoff := StateNow(ep, s, hasAdmin, a), MayWrite(kind, cfg, s, a), HeldOff(kind, s, a);
    WritesMean(kind, cfg, hasAdmin, ep, s, a);
    StepMeans(kind, cfg, hasAdmin, ep, s, a);
    if v.Visited? {
      assert EnabledAsked(v, ep, state, cfg, hasAdmin, may, s, a) by {
        assert Wanted(WriteEnabled(ep.id, true), ep, state, cfg, hasAdmin, may, s, a)
               <==> state == Disabled && AskedToEnable(cfg, hasAdmin, may, s);
        hide AsMeant;
      }
      hide Wanted;
      if state == Disabled {
        DisabledTold(v, ep, cfg, hasAdmin, may, backoff, s, a);
      } else if state == Active && cfg.formatStandardization {
        ActiveTold(v, ep, cfg, hasAdmin, may, backoff, s, a);
      } else {
        NothingTold(v, ep, state, cfg, hasAdmin, may, backoff, s, a);
      }
    }
  }

  lemma NothingTold(v: Visit, ep: AudioEndpoint, state: EndpointState, cfg: Configuration, hasAdmin: bool, may: bool,
                    backoff: bool, s: Slice, a: Answers)
    requires state != Disabled && !(state == Active && cfg.formatStandardization)
    requires EnabledAsked(v, ep, state, cfg, hasAdmin, may, s, a)
    requires AsMeant(v, ep, state, cfg, hasAdmin, may, backoff, s, a)
    ensures ToldAs(v, ep, s, a)
  {
    hide Keeps, AskedToDisable, AskedToEnable;
  }

  // ----- Over whole runs -----

  // That a device was disabled or enabled again, and whether the user was
  // waiting for it in the window.
  datatype Saying = Saying(action: DeviceAction, id: string, name: string, interactive: bool)

  // What the queue says of it, from the first event on.
  function Heard(history: seq<DeviceEvent>): seq<Saying> {
    if history == [] then []
    else
      var n := |history| - 1;
      var e := history[n];
      Heard(history[..n])
      + if e.action != ActionDisabled && e.action != ActionReenabled then []
        else [Saying(e.action, e.id, e.name, e.interactive)]
  }

  // What the calls and their answers say of it.
  function Spoken(st: EngineState, op: Op, hasAdmin: bool): seq<Saying> {
    if !op.StepOp? then []
    else
      var v := VisitAt(st, op.kind, op.cfg, hasAdmin, op.ep, op.answers);
      if VerifiedDisable(v, op.ep, op.answers) then [Saying(ActionDisabled, op.ep.id, op.ep.name, op.interactive)]
      else if VerifiedEnable(v, op.ep, op.answers) then [Saying(ActionReenabled, op.ep.id, op.ep.name, op.interactive)]
      else []
  }

  function AllSpoken(st: EngineState, ops: seq<Op>, hasAdmin: bool): seq<Saying> {
    if ops == [] then []
    else
      var n := |ops| - 1;
      AllSpoken(st, ops[..n], hasAdmin) + Spoken(RunOps(st, ops[..n], hasAdmin).state, ops[n], hasAdmin)
  }

  // The verified disables and re-enables of a run, by case-insensitive id.
  function Changes(deeds: seq<Deed>): seq<(DeviceAction, string)> {
    if deeds == [] then []
    else
      var n := |deeds| - 1;
      Changes(deeds[..n])
      + match deeds[n]
        case DidDisable(key, _, _, _) => [(ActionDisabled, key)]
        case DidReenable(key) => [(ActionReenabled, key)]
        case _ => []
  }

  function ChangeOf(s: Saying): (DeviceAction, string) { (s.action, Lower(s.id)) }

  function ChangesOf(sayings: seq<Saying>): seq<(DeviceAction, string)> {
    if sayings == [] then []
    else
      var n := |sayings| - 1;
      ChangesOf(sayings[..n]) + [ChangeOf(sayings[n])]
  }

  lemma HeardNext(history: seq<DeviceEvent>, more: seq<DeviceEvent>)
    requires |more| <= 1
    ensures Heard(history + more) == Heard(history) + Heard(more)
  {
    if more == [] {
      assert history + more == history;
    } else {
      assert (history + more)[..|history|] == history && more[..0] == [];
    }
  }

  lemma ChangesNext(deeds: seq<Deed>, more: seq<Deed>)
    requires |more| <= 1
    ensures Changes(deeds + more) == Changes(deeds) + Changes(more)
  {
    if more == [] {
      assert deeds + more == deeds;
    } else {
      assert (deeds + more)[..|deeds|] == deeds && more[..0] == [];
    }
  }

  lemma SayingsNext(sayings: seq<Saying>, more: seq<Saying>)
    requires |more| <= 1
    ensures ChangesOf(sayings + more) == ChangesOf(sayings) + ChangesOf(more)
  {
    if more == [] {
      assert sayings + more == sayings;
    } else {
      assert (sayings + more)[..|sayings|] == sayings && more[..0] == [];
    }
  }

  lemma StepSaid(st: EngineState, op: Op, hasAdmin: bool)
    requires ValidOp(op) && WellKeyed(st.records)
    ensures |Spoken(st, op, hasAdmin)| <= 1 && |Deeds(st, op, hasAdmin)| <= 1
    ensures Heard(NewEvents(st, op, hasAdmin)) == Spoken(st, op, hasAdmin)
    ensures Changes(Deeds(st, op, hasAdmin)) == ChangesOf(Spoken(st, op, hasAdmin))
  {
    if op.StepOp? {
      assert GoodRecord(SliceOf(st, op.ep.id)) by {
        hide Lower;
      }
      hide VisitEndpoint, SliceOf, Lower, VerifiedDisable, VerifiedEnable, FailedDisable, NewWait;
      EventIff(op.kind, op.cfg, hasAdmin, op.ep, SliceOf(st, op.ep.id), op.answers);
      DisableOrEnable(VisitAt(st, op.kind, op.cfg, hasAdmin, op.ep, op.answers), op.ep, op.answers);
    } else {
      hide Lower;
    }
  }

  lemma DisableOrEnable(v: Visit, ep: AudioEndpoint, a: Answers)
    ensures VerifiedDisable(v, ep, a) || VerifiedEnable(v, ep, a) || FailedDisable(v, ep, a) ==> v.Visited?
  {
  }

  // In every run the queue was told of each verified disable and each verified
  // re-enable once, in order, with the device's id and name, and whether the user was
  // waiting for it, and of no others: they are the run's deeds.
  lemma {:induction false} EventsTellDeeds(st: EngineState, ops: seq<Op>, hasAdmin: bool)
    requires Fresh(st) && ValidOps(ops)
    ensures Heard(History(st, ops, hasAdmin)) == AllSpoken(st, ops, hasAdmin)
    ensures Changes(RunOps(st, ops, hasAdmin).deeds) == ChangesOf(AllSpoken(st, ops, hasAdmin))
  {
    hide Apply, Deeds, NewEvents, Spoken, Heard, Changes, ChangesOf;
    if ops == [] {
      assert Heard([]) == [] && Changes([]) == [] && ChangesOf([]) == [] by { NothingSaid(); }
    } else {
      var n := |ops| - 1;
      var before := RunOps(st, ops[..n], hasAdmin);
      EventsTellDeeds(st, ops[..n], hasAdmin);
      RunWellKeyed(st, ops[..n], hasAdmin);
      assert ValidOp(ops[n]);
      StepSaid(before.state, ops[n], hasAdmin);
      StepEvents(before.state, ops[n], hasAdmin);
      HeardNext(History(st, ops[..n], hasAdmin), NewEvents(before.state, ops[n], hasAdmin));
      ChangesNext(before.deeds, Deeds(before.state, ops[n], hasAdmin));
      SayingsNext(AllSpoken(st, ops[..n], hasAdmin), Spoken(before.state, ops[n], hasAdmin));
    }
  }

  lemma NothingSaid()
    ensures Heard([]) == [] && Changes([]) == [] && ChangesOf([]) == []
  {
  }
}
