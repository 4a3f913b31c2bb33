// What new settings do to a device that the user had left enabled, or that the
// loop guard holds back (src/core/WatchdogEngine.cpp: setConfig,
// handleIncompatible).

module PolicyChanges {
  import opened Text
  import opened AudioModel
  import opened Capabilities
  import opened Configurations
  import opened EndpointMemories
  import opened EndpointPolicy
  import opened EngineModel
  import opened EndpointFacts
  import opened EngineRuns
  import opened Worlds
  import opened Convergence
  import opened Previews
  import opened LoopGuard
  import opened StepMeaning
  import opened PassMeaning

  // ----- A new chance -----

  // The operation does not concern the record of this device.
  predicate Elsewhere(op: Op, id: string) {
    match op
    case StepOp(_, _, _, ep, _) => Lower(ep.id) != Lower(id)
    case EnableOp(other, _) => Lower(other) != Lower(id)
    case SetConfigOp(_) => false
    case _ => true
  }

  predicate AllElsewhere(ops: seq<Op>, id: string) { forall i :: 0 <= i < |ops| ==> Elsewhere(ops[i], id) }

  lemma RecordElsewhere(st: EngineState, op: Op, id: string)
    requires Elsewhere(op, id)
    ensures SliceOf(Apply(st, op, true), id).record == SliceOf(st, id).record
  {
    if op.StepOp? {
      hide VisitEndpoint, VisitedState, Lower, Apply, Deeds;
      StepIs(st, op, true);
      VisitedRecords(st, op.ep.id, VisitAt(st, op.kind, op.cfg, true, op.ep, op.answers), op.interactive);
    } else {
      hide Lower, LoopKey, Contains, PreviewEndpoint;
    }
  }

  lemma {:induction false} RunElsewhere(st: EngineState, before: seq<Op>, ops: seq<Op>, id: string)
    requires AllElsewhere(ops, id)
    ensures SliceOf(RunOps(st, before + ops, true).state, id).record
            == SliceOf(RunOps(st, before, true).state, id).record
  {
    hide Apply, Deeds, Elsewhere, SliceOf;
    if ops == [] {
      assert before + ops == before;
    } else {
      var n := |ops| - 1;
      RunElsewhere(st, before, ops[..n], id);
      assert (before + ops)[..|before| + n] == before + ops[..n];
      RecordElsewhere(RunOps(st, before + ops[..n], true).state, ops[n], id);
    }
  }

  // A device that the settings want disabled: active, monitored, not at the
  // target, and its driver does not support it.
  predicate Unwanted(d: Device, cfg: Configuration) {
    && d.state == Active && FlowOn(cfg, d.flow) && !d.format.Matches(cfg.sampleRate, cfg.bitDepth)
    && Confirmed(cfg) && Incompatible(Verdict(d, cfg))
  }

  // Whether a full scan disables such a device rests on the user's decision
  // and on the guard alone.
  lemma UnwantedScan(ep: AudioEndpoint, d: Device, cfg: Configuration, s: Slice, a: Answers)
    requires Shows(ep, d) && UpToDate(s, d) && GoodRecord(s) && Honest(d, cfg, a) && Enforcing(cfg) && Unwanted(d, cfg)
    ensures VerifiedDisable(FullVisit(cfg, ep, s, a), ep, a) <==> !LeftByUser(s) && !Held(s, a.wallClock)
  {
    hide FullVisit, VisitEndpoint, Honest, UpToDate, Verdict, GuardRecord, CountRecent, Enforcing, VerifiedEnable;
    hide VerifiedDisable, RecordKept, Shows, IsSupportedBitDepth, Recent, Decimal;
    ConfirmedIs(cfg);
    assert Monitored(cfg, ep.flow) by { FlowIs(cfg, d.flow); ShowsFlow(ep, d); }
    ActiveScan(ep, d, cfg, s, a);
    VisitFacts(FullScan, cfg, true, ep, s, a);
    LeftOrHeld(s, a.wallClock);
    assert FullVisit(cfg, ep, s, a) == VisitEndpoint(FullScan, cfg, true, ep, s, a) by { FullVisitIs(cfg, ep, s, a); }
  }

  lemma FullVisitIs(cfg: Configuration, ep: AudioEndpoint, s: Slice, a: Answers)
    ensures FullVisit(cfg, ep, s, a) == VisitEndpoint(FullScan, cfg, true, ep, s, a)
  {
    hide VisitEndpoint;
  }

  lemma FlowIs(cfg: Configuration, flow: EndpointFlow)
    ensures FlowOn(cfg, flow) <==> Monitored(cfg, flow)
  {
  }

  lemma ShowsFlow(ep: AudioEndpoint, d: Device)
    requires Shows(ep, d)
    ensures ep.flow == d.flow
  {
  }

  // New settings come, anything happens elsewhere, and then a full scan finds
  // a device that they want disabled: it is disabled, verified, if and only if
  // the policy differs from the one before, or the device was neither left
  // enabled by the user nor held back. So a device that the user had left
  // enabled is disabled again exactly when the policy changed.
  lemma NewPolicyNewChance(st: EngineState, before: seq<Op>, cfg: Configuration, between: seq<Op>, ep: AudioEndpoint,
                           d: Device, a: Answers)
    requires Fresh(st) && ValidOps(before) && ValidOps(between) && AllElsewhere(between, ep.id)
    requires Shows(ep, d) && Honest(d, cfg, a) && Enforcing(cfg) && Unwanted(d, cfg)
    requires UpToDate(SliceOf(RunOps(st, before + [SetConfigOp(cfg)] + between, true).state, ep.id), d)
    ensures var was := RunOps(st, before, true).state;
            var found := SliceOf(RunOps(st, before + [SetConfigOp(cfg)] + between, true).state, ep.id);
            VerifiedDisable(FullVisit(cfg, ep, found, a), ep, a) <==>
            || Differ(was.config, cfg)
            || (!LeftByUser(SliceOf(was, ep.id)) && !Held(SliceOf(was, ep.id), a.wallClock))
  {
    hide FullVisit, Honest, UpToDate, Enforcing, Unwanted, Shows, VerifiedDisable, Recent, Apply, Deeds, Differ;
    var was := RunOps(st, before, true).state;
    var op := SetConfigOp(cfg);
    var found := SliceOf(RunOps(st, before + [op] + between, true).state, ep.id);
    RunWellKeyed(st, before, true);
    GoodSlice(was, ep.id);
    assert (before + [op])[..|before|] == before;
    assert RunOps(st, before + [op], true).state == Apply(was, op, true);
    RunElsewhere(st, before + [op], between, ep.id);
    hide RunOps;
    RenewedRecord(was, cfg, ep.id);
    hide SliceOf;
    assert GoodRecord(found);
    UnwantedScan(ep, d, cfg, found, a);
    NothingRecent(found, a.wallClock);
  }

  lemma RenewedRecord(st: EngineState, cfg: Configuration, id: string)
    ensures var s, s' := SliceOf(st, id), SliceOf(Apply(st, SetConfigOp(cfg), true), id);
            && (!Differ(st.config, cfg) ==> s'.record == s.record)
            && (Differ(st.config, cfg) ==>
                  s'.record == if DisabledByUs(s) then Some(s.record.value.(leftEnabled := false, history := []))
                               else None)
  {
    SettingsMean(st, cfg);
    hide Lower, LoopKey, SetConfigState, Differ;
  }

  lemma NothingRecent(s: Slice, t: int)
    ensures PastDisables(s) == [] ==> |Recent(PastDisables(s), t)| == 0
  {
    if PastDisables(s) == [] {
      assert Recent(PastDisables(s), t) == {};
    }
  }
}
