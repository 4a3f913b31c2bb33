// The failure backoff over whole runs (src/core/WatchdogEngine.cpp,
// src/core/EndpointMemory.cpp).

module Backoff {
  import opened Text
  import opened AudioModel
  import opened Capabilities
  import opened Configurations
  import opened DeviceStateStores
  import opened EndpointMemories
  import opened Policies
  import opened EndpointPolicy
  import opened EngineModel
  import opened EndpointFacts
  import opened EngineRuns

  // What may happen while the endpoint's failure is remembered: no full pass
  // visits it, the memory is not cleared, the device does not change, and its
  // triggered steps come less than the backoff after the failure.
  predicate KeepsBackoff(op: Op, id: string, failedAt: int) {
    match op
    case StepOp(kind, _, _, ep, a) =>
      ep.id == id ==> kind == TriggeredScan && a.startClock - failedAt < FAILURE_BACKOFF_MS
    case PreviewOp(_, _, _) => true
    case SetConfigOp(_) => false
    case EnableOp(_, _) => true
    case DeviceChangeOp(changed) => changed != id
    case ForgetCapabilitiesOp => true
    case ClearMemoryOp => false
  }

  predicate RemembersFailure(st: EngineState, id: string, failedAt: int) { GetOpt(st.failures, id) == Some(failedAt) }

  // A triggered step inside the backoff writes nothing and remembers as much.
  lemma QuietStep(kind: ScanKind, cfg: Configuration, hasAdmin: bool, ep: AudioEndpoint, s: Slice, a: Answers)
    requires kind == TriggeredScan && InBackoff(s, a.startClock) && GoodRecord(s)
    ensures var v := VisitEndpoint(kind, cfg, hasAdmin, ep, s, a);
            v.Visited? ==>
              v.writes == [] && v.slice.failure == s.failure && !VerifiedDisable(v, ep, a) && !VerifiedEnable(v, ep, a)
  {
    hide Monitored, Modify;
    var seen := Seen(ep, s, hasAdmin, a);
    if Monitored(cfg, ep.flow) && Considered(seen, s) && a.canModify {
      ModifyFacts(seen, s, cfg, false, true, hasAdmin, a);
    }
  }

  lemma BackoffStep(st: EngineState, op: Op, hasAdmin: bool, id: string, failedAt: int)
    requires ValidOp(op) && WellKeyed(st.records) && RemembersFailure(st, id, failedAt)
    requires KeepsBackoff(op, id, failedAt)
    ensures RemembersFailure(Apply(st, op, hasAdmin), id, failedAt)
    ensures op.StepOp? && op.ep.id == id ==>
              var v := VisitAt(st, op.kind, op.cfg, hasAdmin, op.ep, op.answers); v.Visited? ==> v.writes == []
  {
    if op.StepOp? {
      var s := SliceOf(st, op.ep.id);
      var v := VisitAt(st, op.kind, op.cfg, hasAdmin, op.ep, op.answers);
      if op.ep.id == id {
        assert GoodRecord(s);
        QuietStep(op.kind, op.cfg, hasAdmin, op.ep, s, op.answers);
      }
      hide VisitEndpoint, Lower, LoopKey, WellKeyed;
      VisitedFailures(st, op.ep.id, v, op.interactive);
    } else {
      hide Lower, LoopKey, Contains, WellKeyed, PreviewEndpoint;
    }
  }

  lemma VisitedFailures(st: EngineState, id: string, v: Visit, interactive: bool)
    ensures VisitedState(st, id, v, interactive).failures
            == if v.Visited? then SetOpt(st.failures, id, v.slice.failure) else st.failures
  {
    hide Lower, LoopKey, SetOpt;
  }

  // After a failure no triggered pass writes the endpoint for the length of
  // the backoff: not its name, its exclusive mode, its format, nor its state.
  lemma {:induction false} NoWritesInBackoff(st: EngineState, ops: seq<Op>, hasAdmin: bool, id: string, failedAt: int)
    requires ValidOps(ops) && WellKeyed(st.records) && RemembersFailure(st, id, failedAt)
    requires forall i :: 0 <= i < |ops| ==> KeepsBackoff(ops[i], id, failedAt)
    ensures RemembersFailure(RunOps(st, ops, hasAdmin).state, id, failedAt)
    ensures WellKeyed(RunOps(st, ops, hasAdmin).state.records)
    ensures forall i :: 0 <= i < |ops| && ops[i].StepOp? && ops[i].ep.id == id ==>
              WritesNothing(RunOps(st, ops[..i], hasAdmin).state, ops[i], hasAdmin)
  {
    hide Apply, Deeds, KeepsBackoff, RemembersFailure, WellKeyed, WritesNothing;
    if ops == [] {
    } else {
      var n := |ops| - 1;
      var front := ops[..n];
      var r := RunOps(st, front, hasAdmin);
      NoWritesInBackoff(st, front, hasAdmin, id, failedAt);
      assert ValidOp(ops[n]) && KeepsBackoff(ops[n], id, failedAt);
      QuietOp(r.state, ops[n], hasAdmin, id, failedAt);
      forall i | 0 <= i < |ops| && ops[i].StepOp? && ops[i].ep.id == id
        ensures WritesNothing(RunOps(st, ops[..i], hasAdmin).state, ops[i], hasAdmin)
      {
        if i < n {
          assert front[i] == ops[i] && front[..i] == ops[..i];
        }
      }
    }
  }

  predicate WritesNothing(st: EngineState, op: Op, hasAdmin: bool) {
    op.StepOp? && var v := VisitAt(st, op.kind, op.cfg, hasAdmin, op.ep, op.answers); v.Visited? ==> v.writes == []
  }

  lemma QuietOp(st: EngineState, op: Op, hasAdmin: bool, id: string, failedAt: int)
    requires ValidOp(op) && WellKeyed(st.records) && RemembersFailure(st, id, failedAt)
    requires KeepsBackoff(op, id, failedAt)
    ensures RemembersFailure(Apply(st, op, hasAdmin), id, failedAt) && WellKeyed(Apply(st, op, hasAdmin).records)
    ensures op.StepOp? && op.ep.id == id ==> WritesNothing(st, op, hasAdmin)
  {
    hide WellKeyed, RemembersFailure, KeepsBackoff, Apply, RecordMove;
    BackoffStep(st, op, hasAdmin, id, failedAt);
    OpMoves(st, op, hasAdmin, "");
  }

  // A full pass retries at once, and so does a triggered one when the backoff
  // is over: whether a failure is remembered makes no difference to them.
  lemma RetriedOutsideBackoff(kind: ScanKind, cfg: Configuration, hasAdmin: bool, ep: AudioEndpoint, s: Slice,
                              a: Answers)
    requires kind == FullScan || !InBackoff(s, a.startClock)
    ensures var v, w := VisitEndpoint(kind, cfg, hasAdmin, ep, s, a),
                        VisitEndpoint(kind, cfg, hasAdmin, ep, s.(failure := None), a);
            && v.Visited? == w.Visited?
            && (v.Visited? ==> v.writes == w.writes && v.report == w.report && v.slice.record == w.slice.record)
  {
    var s' := s.(failure := None);
    assert Seen(ep, s, hasAdmin, a) == Seen(ep, s', hasAdmin, a);
    var seen := Seen(ep, s, hasAdmin, a);
    hide Monitored, Modify, Seen;
    if Monitored(cfg, ep.flow) && Considered(seen, s) && a.canModify {
      ModifyIgnoresFailure(seen, s, cfg, cfg.enforce, false, hasAdmin, a);
    }
  }

  predicate SameButFailure(s: Slice, s': Slice) {
    s'.record == s.record && s'.caps == s.caps && s'.loopNotice == s.loopNotice
  }

  lemma ModifyIgnoresFailure(ep: AudioEndpoint, s: Slice, cfg: Configuration, enforce: bool, backoff: bool,
                             hasAdmin: bool, a: Answers)
    requires Considered(ep, s)
    ensures var v, w := Modify(ep, s, cfg, enforce, backoff, hasAdmin, a),
                        Modify(ep, s.(failure := None), cfg, enforce, backoff, hasAdmin, a);
            v.writes == w.writes && v.report == w.report && v.slice.record == w.slice.record
  {
    var s' := s.(failure := None);
    EarlyIgnoreFailure(ep, cfg, enforce, hasAdmin, s, s', a);
    var s1, s1' := NamePhase(ep, cfg, enforce, hasAdmin, s, a).0, NamePhase(ep, cfg, enforce, hasAdmin, s', a).0;
    EarlyIgnoreFailure(ep, cfg, enforce, hasAdmin, s1, s1', a);
    var s2, s2' := ExclusivePhase(ep, cfg, enforce, s1, a).0, ExclusivePhase(ep, cfg, enforce, s1', a).0;
    if ep.state == Disabled {
      hide NamePhase, ExclusivePhase, FormatPhase, DisablePolicyConfirmed, Judged, WhyEnable;
    } else {
      FormatIgnoresFailure(ep, cfg, enforce, backoff, hasAdmin, s2, s2', NewReport(ep), a);
      hide NamePhase, ExclusivePhase, FormatPhase, DisabledPhase;
    }
  }

  lemma EarlyIgnoreFailure(ep: AudioEndpoint, cfg: Configuration, enforce: bool, hasAdmin: bool, s: Slice, s': Slice,
                           a: Answers)
    requires SameButFailure(s, s')
    ensures var (s1, w), (s1', w') := NamePhase(ep, cfg, enforce, hasAdmin, s, a),
                                      NamePhase(ep, cfg, enforce, hasAdmin, s', a);
            w == w' && SameButFailure(s1, s1') && SameButFailure(s, s1)
    ensures var (s1, w), (s1', w') := ExclusivePhase(ep, cfg, enforce, s, a), ExclusivePhase(ep, cfg, enforce, s', a);
            w == w' && SameButFailure(s1, s1') && SameButFailure(s, s1)
  {
    hide CustomDeviceName;
  }

  lemma FormatIgnoresFailure(ep: AudioEndpoint, cfg: Configuration, enforce: bool, backoff: bool, hasAdmin: bool,
                             s: Slice, s': Slice, d: DeviceReport, a: Answers)
    requires SameButFailure(s, s')
    ensures var e, e' := FormatPhase(ep, cfg, enforce, backoff, hasAdmin, s, d, a),
                         FormatPhase(ep, cfg, enforce, backoff, hasAdmin, s', d, a);
            e.writes == e'.writes && e.device == e'.device && e.event == e'.event && SameButFailure(e.slice, e'.slice)
  {
    var out := JudgeAndApply(ep.id, cfg.sampleRate, cfg.bitDepth, enforce, a.apply).0;
    IncompatibleIgnoresFailure(ep, cfg, enforce, hasAdmin, s, s', FormatReport(d, out, backoff), a);
    hide JudgeAndApply, FormatReport, IncompatiblePhase;
  }

  lemma IncompatibleIgnoresFailure(ep: AudioEndpoint, cfg: Configuration, enforce: bool, hasAdmin: bool, s: Slice,
                                   s': Slice, d: DeviceReport, a: Answers)
    requires SameButFailure(s, s')
    ensures var e, e' := IncompatiblePhase(ep, cfg, enforce, hasAdmin, s, d, a),
                         IncompatiblePhase(ep, cfg, enforce, hasAdmin, s', d, a);
            e.writes == e'.writes && e.device == e'.device && e.event == e'.event && SameButFailure(e.slice, e'.slice)
  {
    var (s1, caps) := CapabilitiesFor(s, a.current.value, a.probe);
    var (s1', caps') := CapabilitiesFor(s', a.current.value, a.probe);
    hide Probe, DisablePolicyConfirmed, Judged;
    assert caps == caps' && SameButFailure(s1, s1');
    GuardIgnoresFailure(ep, cfg, s1, s1', Judged(d, caps, cfg.sampleRate, cfg.bitDepth), a);
    hide GuardPhase, CapabilitiesFor;
  }

  lemma GuardIgnoresFailure(ep: AudioEndpoint, cfg: Configuration, s: Slice, s': Slice, d: DeviceReport, a: Answers)
    requires SameButFailure(s, s')
    ensures var e, e' := GuardPhase(ep, cfg, s, d, a), GuardPhase(ep, cfg, s', d, a);
            e.writes == e'.writes && e.device == e'.device && e.event == e'.event && SameButFailure(e.slice, e'.slice)
  {
    hide Prune, CountRecent, DisabledRecord;
    assert GuardRecord(s, a.wallClock) == GuardRecord(s', a.wallClock);
  }

  // ----- What a step remembers of its writes -----

  // The write did what it was for, as far as the step can tell.
  predicate Worked(w: DeviceWrite, cfg: Configuration, a: Answers) {
    match w
    case WriteDescription(_, _) => Succeeded(a.setDescription)
    case WriteExclusive(_) =>
      Succeeded(a.exclusive.write) && Succeeded(a.exclusive.after.code) && !a.exclusive.after.value
    case WriteFormat(_, _) =>
      && Succeeded(a.apply.write) && Succeeded(a.apply.reread.code)
      && a.apply.reread.value.Matches(cfg.sampleRate, cfg.bitDepth)
    case WriteEnabled(_, enabled) => if enabled then SaysEnabled(a) else SaysDisabled(a)
  }

  // The clock a failure of the write is remembered with.
  function ClockFor(w: DeviceWrite, a: Answers): int {
    match w
    case WriteDescription(_, _) => a.nameClock
    case WriteExclusive(_) => a.exclusiveClock
    case _ => a.formatClock
  }

  // A verified fix of the exclusive mode or the format, and a verified
  // disable, clear the failure. A restored name and a verified enable do not.
  predicate Clears(w: DeviceWrite) { w.WriteExclusive? || w.WriteFormat? || (w.WriteEnabled? && !w.enabled) }

  // The failure memory after the writes, one after the other.
  function FailureAfter(writes: seq<DeviceWrite>, failure: Option<int>, cfg: Configuration, a: Answers): Option<int> {
    if writes == [] then failure
    else
      var n := |writes| - 1;
      if !Worked(writes[n], cfg, a) then Some(ClockFor(writes[n], a))
      else if Clears(writes[n]) then None
      else FailureAfter(writes[..n], failure, cfg, a)
  }

  lemma {:induction false} FailureAfterBoth(v: seq<DeviceWrite>, w: seq<DeviceWrite>, failure: Option<int>,
                                            cfg: Configuration, a: Answers)
    ensures FailureAfter(v + w, failure, cfg, a) == FailureAfter(w, FailureAfter(v, failure, cfg, a), cfg, a)
  {
    if w == [] {
      assert v + w == v;
    } else {
      var n := |w| - 1;
      assert (v + w)[..|v| + n] == v + w[..n];
      hide Worked, Clears, ClockFor;
      FailureAfterBoth(v, w[..n], failure, cfg, a);
    }
  }

  // A phase remembers exactly what its writes came to.
  predicate Remembers(writes: seq<DeviceWrite>, s: Slice, s': Slice, cfg: Configuration, a: Answers) {
    s'.failure == FailureAfter(writes, s.failure, cfg, a)
  }

  lemma OneWriteRemembered(w: DeviceWrite, failure: Option<int>, cfg: Configuration, a: Answers)
    ensures FailureAfter([], failure, cfg, a) == failure
    ensures FailureAfter([w], failure, cfg, a)
            == if !Worked(w, cfg, a) then Some(ClockFor(w, a)) else if Clears(w) then None else failure
  {
    assert [w][..0] == [];
  }

  lemma NameRemembers(ep: AudioEndpoint, cfg: Configuration, enforce: bool, hasAdmin: bool, s: Slice, a: Answers)
    ensures var (s1, w) := NamePhase(ep, cfg, enforce, hasAdmin, s, a);
            Remembers(w, s, s1, cfg, a) && (w == [] || (|w| == 1 && w[0].WriteDescription?))
  {
    hide FailureAfter, CustomDeviceName;
    OneWriteRemembered(WriteDescription(ep.id, CustomDeviceName(cfg.deviceNames, ep.id)), s.failure, cfg, a);
  }

  lemma ExclusiveRemembers(ep: AudioEndpoint, cfg: Configuration, enforce: bool, s: Slice, a: Answers)
    ensures var (s1, w) := ExclusivePhase(ep, cfg, enforce, s, a);
            Remembers(w, s, s1, cfg, a) && (w == [] || w == [WriteExclusive(ep.id)])
  {
    hide FailureAfter;
    OneWriteRemembered(WriteExclusive(ep.id), s.failure, cfg, a);
  }

  lemma DisabledRemembers(ep: AudioEndpoint, record: DisabledDeviceRecord, cfg: Configuration, enforce: bool,
                          hasAdmin: bool, s: Slice, d: DeviceReport, a: Answers)
    ensures var e := DisabledPhase(ep, record, cfg, enforce, hasAdmin, s, d, a);
            Remembers(e.writes, s, e.slice, cfg, a) && (e.writes == [] || e.writes == [WriteEnabled(ep.id, true)])
  {
    hide Judged, DisablePolicyConfirmed, Incompatible, WhyEnable, FailureAfter;
    OneWriteRemembered(WriteEnabled(ep.id, true), s.failure, cfg, a);
  }

  lemma IncompatibleRemembers(ep: AudioEndpoint, cfg: Configuration, enforce: bool, hasAdmin: bool, s: Slice,
                              d: DeviceReport, a: Answers)
    ensures var e := IncompatiblePhase(ep, cfg, enforce, hasAdmin, s, d, a);
            Remembers(e.writes, s, e.slice, cfg, a) && (e.writes == [] || e.writes == [WriteEnabled(ep.id, false)])
  {
    hide CapabilitiesFor, Judged, DisablePolicyConfirmed, GuardRecord, CountRecent, FailureAfter, DisabledRecord;
    CapabilitiesKeep(s, a);
    OneWriteRemembered(WriteEnabled(ep.id, false), s.failure, cfg, a);
  }

  lemma FormatRemembers(ep: AudioEndpoint, cfg: Configuration, enforce: bool, backoff: bool, hasAdmin: bool, s: Slice,
                        d: DeviceReport, a: Answers)
    ensures var e := FormatPhase(ep, cfg, enforce, backoff, hasAdmin, s, d, a);
            Remembers(e.writes, s, e.slice, cfg, a) && |e.writes| <= 1 && (e.writes != [] ==> Clears(e.writes[0]))
  {
    hide FormatReport, IncompatiblePhase, JudgeAndApply, FailureAfter;
    var (out, writes) := JudgeAndApply(ep.id, cfg.sampleRate, cfg.bitDepth, enforce, a.apply);
    IncompatibleRemembers(ep, cfg, enforce, hasAdmin, s, FormatReport(d, out, backoff), a);
    AppliedRemembers(ep.id, s, cfg, enforce, a);
  }

  lemma AppliedRemembers(id: string, s: Slice, cfg: Configuration, enforce: bool, a: Answers)
    ensures var (out, writes) := JudgeAndApply(id, cfg.sampleRate, cfg.bitDepth, enforce, a.apply);
            && |writes| <= 1 && (writes != [] ==> Clears(writes[0]))
            && (out.result != Unsupported ==> Remembers(writes, s, FormatMemory(s, out.result, a.formatClock), cfg, a))
  {
    hide Candidates, Choose, FailureAfter;
    var (out, writes) := JudgeAndApply(id, cfg.sampleRate, cfg.bitDepth, enforce, a.apply);
    OneWriteRemembered(if writes == [] then WriteFormat(id, out.applied) else writes[0], s.failure, cfg, a);
  }

  // The failure memory after a step is exactly what the results of its writes
  // make of it, in their order.
  lemma StepRemembers(ep: AudioEndpoint, s: Slice, cfg: Configuration, enforce: bool, backoff: bool, hasAdmin: bool,
                      a: Answers)
    requires Considered(ep, s)
    ensures var v := Modify(ep, s, cfg, enforce, backoff, hasAdmin, a);
            && v.slice.failure == FailureAfter(v.writes, s.failure, cfg, a)
            && StepWrites(v.writes, ep.state == Disabled)
  {
    hide NamePhase, ExclusivePhase, DisabledPhase, FormatPhase, FailureAfter, Clears;
    var (s1, w1) := NamePhase(ep, cfg, enforce, hasAdmin, s, a);
    var (s2, w2) := ExclusivePhase(ep, cfg, enforce, s1, a);
    NameRemembers(ep, cfg, enforce, hasAdmin, s, a);
    ExclusiveRemembers(ep, cfg, enforce, s1, a);
    if ep.state == Disabled {
      var e := DisabledPhase(ep, s.record.value, cfg, enforce, hasAdmin, s1, NewReport(ep), a);
      DisabledRemembers(ep, s.record.value, cfg, enforce, hasAdmin, s1, NewReport(ep), a);
      FailureAfterBoth(w1, e.writes, s.failure, cfg, a);
    } else {
      FailureAfterBoth(w1, w2, s.failure, cfg, a);
      WritesInOrder(w1, w2, []);
      if ep.state == Active && cfg.formatStandardization {
        var e := FormatPhase(ep, cfg, enforce, backoff, hasAdmin, s2, NewReport(ep), a);
        FormatRemembers(ep, cfg, enforce, backoff, hasAdmin, s2, NewReport(ep), a);
        FailureAfterBoth(w1 + w2, e.writes, s.failure, cfg, a);
        WritesInOrder(w1, w2, e.writes);
      } else {
        assert w1 + w2 + [] == w1 + w2;
      }
    }
  }

  // Only the first write of a step can be a name. After it come writes that
  // clear the failure when they work, but for a disabled device: there the
  // only other write is the enable.
  predicate StepWrites(writes: seq<DeviceWrite>, disabled: bool) {
    && (disabled ==> |writes| <= 2)
    && forall i :: 0 <= i < |writes| ==>
         || (i == 0 && writes[i].WriteDescription?)
         || (if disabled then i == |writes| - 1 && writes[i].WriteEnabled? && writes[i].enabled else Clears(writes[i]))
  }

  lemma WritesInOrder(w1: seq<DeviceWrite>, w2: seq<DeviceWrite>, w3: seq<DeviceWrite>)
    requires w1 == [] || (|w1| == 1 && w1[0].WriteDescription?)
    requires w2 == [] || (|w2| == 1 && w2[0].WriteExclusive?)
    requires w3 == [] || (|w3| == 1 && Clears(w3[0]))
    ensures StepWrites(w1 + w2 + w3, false)
  {
  }

  // An earlier write of the step failed, and its last one worked.
  predicate LaterSuccess(writes: seq<DeviceWrite>, cfg: Configuration, a: Answers) {
    && writes != [] && Worked(writes[|writes| - 1], cfg, a)
    && exists i :: 0 <= i < |writes| - 1 && !Worked(writes[i], cfg, a)
  }

  // A later success of the same step clears an earlier failure, exactly when
  // the device was not disabled by Audioslave as the step began: a step that
  // fails to restore a name and then enables the device keeps the failure.
  lemma LaterSuccessClearsIff(ep: AudioEndpoint, s: Slice, cfg: Configuration, enforce: bool, backoff: bool,
                              hasAdmin: bool, a: Answers)
    requires Considered(ep, s)
    requires LaterSuccess(Modify(ep, s, cfg, enforce, backoff, hasAdmin, a).writes, cfg, a)
    ensures var f := Modify(ep, s, cfg, enforce, backoff, hasAdmin, a).slice.failure;
            && (f == None <==> ep.state != Disabled)
            && (ep.state == Disabled ==> f == Some(a.nameClock))
  {
    hide Modify;
    StepRemembers(ep, s, cfg, enforce, backoff, hasAdmin, a);
    LaterSuccessOf(Modify(ep, s, cfg, enforce, backoff, hasAdmin, a).writes, ep.state == Disabled, s.failure, cfg, a);
  }

  lemma LaterSuccessOf(writes: seq<DeviceWrite>, disabled: bool, failure: Option<int>, cfg: Configuration, a: Answers)
    requires StepWrites(writes, disabled) && LaterSuccess(writes, cfg, a)
    ensures FailureAfter(writes, failure, cfg, a) == if disabled then Some(a.nameClock) else None
  {
    hide Worked;
    var i :| 0 <= i < |writes| - 1 && !Worked(writes[i], cfg, a);
    var n := |writes| - 1;
    if disabled {
      assert i == 0 && n == 1 && writes[0].WriteDescription?;
      assert writes[..1] == [writes[0]];
      OneWriteRemembered(writes[0], failure, cfg, a);
    } else {
      assert Clears(writes[n]);
    }
  }

  // Without a write the memory is kept, a last write that fails is remembered,
  // and one that works clears it if it is of the kind that does.
  lemma LastWriteDecides(ep: AudioEndpoint, s: Slice, cfg: Configuration, enforce: bool, backoff: bool, hasAdmin: bool,
                         a: Answers)
    requires Considered(ep, s)
    ensures var v := Modify(ep, s, cfg, enforce, backoff, hasAdmin, a);
            var n := |v.writes| - 1;
            && (v.writes == [] ==> v.slice.failure == s.failure)
            && (v.writes != [] && !Worked(v.writes[n], cfg, a) ==> v.slice.failure == Some(ClockFor(v.writes[n], a)))
            && (v.writes != [] && Worked(v.writes[n], cfg, a) && Clears(v.writes[n]) ==> v.slice.failure == None)
            && (v.writes != [] && Worked(v.writes[n], cfg, a) && !Clears(v.writes[n]) ==>
                  v.slice.failure == FailureAfter(v.writes[..n], s.failure, cfg, a))
  {
    hide Modify, Worked, Clears, ClockFor;
    StepRemembers(ep, s, cfg, enforce, backoff, hasAdmin, a);
  }

  // ----- A rejected name and an enable that works -----

  // The name is rejected; enabling works and is read back.
  predicate OnlyNameRejected(a: Answers) { a.canModify && !Succeeded(a.setDescription) && SaysEnabled(a) }

  predicate NameDiffers(ep: AudioEndpoint, cfg: Configuration) {
    var wanted := CustomDeviceName(cfg.deviceNames, ep.id);
    wanted != "" && ep.description != "" && ep.description != wanted
  }

  // The step enables the device again, and what it remembers is the failed
  // name: the triggered steps that follow, until the backoff is over, write
  // nothing, whatever its exclusive mode and format are.
  lemma EnableKeepsFailure(ep: AudioEndpoint, s: Slice, cfg: Configuration, a: Answers)
    requires ep.state == Disabled && DisabledByUs(s) && NameDiffers(ep, cfg) && OnlyNameRejected(a)
    requires Monitored(cfg, ep.flow) && cfg.enforce && !DisablePolicyConfirmed(cfg)
    ensures var v := VisitEndpoint(FullScan, cfg, true, ep, s, a);
            && v.Visited? && |v.writes| == 2 && v.writes[1] == WriteEnabled(ep.id, true)
            && v.report.Some? && v.report.value.action == ActionReenabled
            && v.slice.failure == Some(a.nameClock) && v.slice.record == None
            && LaterSuccess(v.writes, cfg, a)
    ensures var v := VisitEndpoint(FullScan, cfg, true, ep, s, a);
            forall ep': AudioEndpoint, a': Answers :: a'.startClock - a.nameClock < FAILURE_BACKOFF_MS ==>
              var v' := VisitEndpoint(TriggeredScan, cfg, true, ep', v.slice, a');
              v'.Visited? ==> v'.writes == [] && v'.slice.failure == Some(a.nameClock)
  {
    EnabledDespiteName(ep, s, cfg, a);
    hide VisitEndpoint;
    var v := VisitEndpoint(FullScan, cfg, true, ep, s, a);
    forall ep': AudioEndpoint, a': Answers | a'.startClock - a.nameClock < FAILURE_BACKOFF_MS
      ensures var v' := VisitEndpoint(TriggeredScan, cfg, true, ep', v.slice, a');
              v'.Visited? ==> v'.writes == [] && v'.slice.failure == Some(a.nameClock)
    {
      QuietStep(TriggeredScan, cfg, true, ep', v.slice, a');
    }
  }

  lemma EnabledDespiteName(ep: AudioEndpoint, s: Slice, cfg: Configuration, a: Answers)
    requires ep.state == Disabled && DisabledByUs(s) && NameDiffers(ep, cfg) && OnlyNameRejected(a)
    requires Monitored(cfg, ep.flow) && cfg.enforce && !DisablePolicyConfirmed(cfg)
    ensures var v := VisitEndpoint(FullScan, cfg, true, ep, s, a);
            && v.Visited? && |v.writes| == 2 && v.writes[1] == WriteEnabled(ep.id, true)
            && v.report.Some? && v.report.value.action == ActionReenabled
            && v.slice.failure == Some(a.nameClock) && v.slice.record == None
            && LaterSuccess(v.writes, cfg, a)
  {
    hide Monitored, DisablePolicyConfirmed, CustomDeviceName, Judged, WhyEnable, ExclusivePhase, FormatPhase;
    assert Seen(ep, s, true, a) == ep && Considered(ep, s);
    var (s1, w1) := NamePhase(ep, cfg, true, true, s, a);
    assert |w1| == 1 && w1[0].WriteDescription? && s1 == s.(failure := Some(a.nameClock));
    hide NamePhase;
    var e := DisabledPhase(ep, s.record.value, cfg, true, true, s1, NewReport(ep), a);
    assert e.writes == [WriteEnabled(ep.id, true)] && e.slice == s1.(record := None);
    hide DisabledPhase;
    var writes := w1 + e.writes;
    assert !Worked(writes[0], cfg, a) && Worked(writes[1], cfg, a);
  }

  // One such step: a microphone with a kept name, disabled earlier, found with
  // another name under the default configuration.
  const MICROPHONE := AudioEndpoint("mic", "Mic", "Mic", Capture, Disabled, false)
  const KEPT_NAME := DEFAULT_CONFIGURATION.(deviceNames := [("mic", "Studio")])
  const DISABLED_EARLIER := Slice(Some(NEW_RECORD.(id := "mic")), None, None, None)

  function RejectName(a: Answers): Answers {
    a.(canModify := true, setDescription := -1, enable := RESULT_OK, stateAfterEnable := Reply(RESULT_OK, Active))
  }

  lemma FailureKeptExample(answers: Answers)
    ensures var a := RejectName(answers);
            var v := VisitEndpoint(FullScan, KEPT_NAME, true, MICROPHONE, DISABLED_EARLIER, a);
            && v.Visited? && v.report.Some? && v.report.value.action == ActionReenabled
            && v.slice.failure == Some(a.nameClock)
  {
    assert CustomDeviceName(KEPT_NAME.deviceNames, "mic") == "Studio";
    hide VisitEndpoint, CustomDeviceName;
    EnableKeepsFailure(MICROPHONE, DISABLED_EARLIER, KEPT_NAME, RejectName(answers));
  }
}
