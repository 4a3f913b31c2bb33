// Whole runs of the engine: any sequence of endpoint steps (of any passes,
// with any answers), previews, settings, user commands and device changes. What is
// proved here: who may be enabled again, and how often a device is disabled.

module EngineRuns {
  import opened Text
  import opened AudioModel
  import opened Configurations
  import opened DeviceStateStores
  import opened EndpointMemories
  import opened EndpointPolicy
  import opened EngineModel
  import opened EndpointFacts

  // A step belongs to a pass that captured `cfg` when it began, so passes may
  // interleave with everything else, endpoint by endpoint.
  datatype Op =
    | StepOp(kind: ScanKind, cfg: Configuration, interactive: bool, ep: AudioEndpoint, answers: Answers)
    | PreviewOp(candidate: Configuration, ep: AudioEndpoint, asked: PreviewAnswers)
    | SetConfigOp(cfg: Configuration)
    | EnableOp(id: string, enable: EnableAnswers)
    | DeviceChangeOp(id: string)
    | ForgetCapabilitiesOp
    | ClearMemoryOp

  predicate ValidOp(op: Op) { op.StepOp? ==> op.ep.id != "" }

  function Apply(st: EngineState, op: Op, hasAdmin: bool): EngineState {
    match op
    case StepOp(kind, cfg, interactive, ep, a) =>
      VisitedState(st, ep.id, VisitAt(st, kind, cfg, hasAdmin, ep, a), interactive)
    case PreviewOp(candidate, ep, a) => PreviewedState(st, candidate, ep, a)
    case SetConfigOp(cfg) => SetConfigState(st, cfg)
    case EnableOp(id, a) => if hasAdmin then EnableDeviceState(st, id, a) else st
    case DeviceChangeOp(id) => ForgetEndpointState(st, id)
    case ForgetCapabilitiesOp => ForgetCapabilitiesState(st)
    case ClearMemoryOp => ClearMemoryState(st)
  }

  // What happened to devices, told from the calls made and their answers, by
  // case-insensitive id; and when a device's record was dropped or reset.
  datatype Deed =
    | DidDisable(key: string, time: int, rate: nat, bits: nat)
    | DidReenable(key: string)
    | DidUserEnable(key: string)
    | DidForget(key: string)
    | DidReset

  function StepDeeds(s: Slice, v: Visit, cfg: Configuration, ep: AudioEndpoint, a: Answers): seq<Deed> {
    if VerifiedDisable(v, ep, a) then [DidDisable(Lower(ep.id), a.wallClock, cfg.sampleRate, cfg.bitDepth)]
    else if VerifiedEnable(v, ep, a) then [DidReenable(Lower(ep.id))]
    else if v.Visited? && v.slice.record == None && s.record.Some? then [DidForget(Lower(ep.id))]
    else []
  }

  function Deeds(st: EngineState, op: Op, hasAdmin: bool): seq<Deed> {
    match op
    case StepOp(kind, cfg, interactive, ep, a) =>
      StepDeeds(SliceOf(st, ep.id), VisitAt(st, kind, cfg, hasAdmin, ep, a), cfg, ep, a)
    case SetConfigOp(cfg) => if PolicyChanged(cfg, st.config) then [DidReset] else []
    case EnableOp(id, a) => if hasAdmin && EnableSucceeds(a) then [DidUserEnable(Lower(id))] else []
    case _ => []
  }

  datatype Run = Run(state: EngineState, deeds: seq<Deed>)

  function RunOps(st: EngineState, ops: seq<Op>, hasAdmin: bool): Run {
    if ops == [] then Run(st, [])
    else
      var n := |ops| - 1;
      var r := RunOps(st, ops[..n], hasAdmin);
      Run(Apply(r.state, ops[n], hasAdmin), r.deeds + Deeds(r.state, ops[n], hasAdmin))
  }

  // A run that starts without any record.
  predicate Fresh(st: EngineState) { st.records == map[] }

  predicate ValidOps(ops: seq<Op>) { forall i :: 0 <= i < |ops| ==> ValidOp(ops[i]) }

  // ----- Records and deeds, one step -----

  function RecordOf(st: EngineState, key: string): Option<DisabledDeviceRecord> { GetOpt(st.records, key) }

  function ClockOf(op: Op): int { if op.StepOp? then op.answers.wallClock else 0 }

  // How one operation, at wall time `now`, changes the record of one device.
  predicate RecordMove(before: Option<DisabledDeviceRecord>, after: Option<DisabledDeviceRecord>, deeds: seq<Deed>,
                       key: string, now: int) {
    if deeds == [] then
      || after == before
      || (before.Some? && after == Some(before.value.(history := Prune(before.value.history, now), disabled := false)))
    else
      |deeds| == 1 &&
      match deeds[0]
      case DidDisable(k, t, _, _) =>
        if k != key then after == before
        else
          && t == now
          && (before.Some? ==> !before.value.leftEnabled)
          && after.Some? && after.value.disabled
          && after.value.history == Prune(if before.Some? then before.value.history else [], t) + [t]
          && CountRecent(Prune(if before.Some? then before.value.history else [], t), t) < MAX_DISABLES_PER_WINDOW
      case DidReenable(k) =>
        if k != key then after == before else before.Some? && before.value.disabled && after == None
      case DidUserEnable(k) =>
        if k != key || before.None? then after == before
        else after == Some(before.value.(disabled := false, leftEnabled := true))
      case DidForget(k) => if k != key then after == before else after == None
      case DidReset =>
        after == (if before.Some? && before.value.disabled then Some(ResetRecord(before.value)) else None)
  }

  // The visited device's own record.
  lemma SliceMoves(kind: ScanKind, cfg: Configuration, hasAdmin: bool, ep: AudioEndpoint, s: Slice, a: Answers)
    requires GoodRecord(s)
    ensures var v := VisitEndpoint(kind, cfg, hasAdmin, ep, s, a);
            v.Visited? ==>
              && RecordMove(s.record, v.slice.record, StepDeeds(s, v, cfg, ep, a), Lower(ep.id), a.wallClock)
              && (v.slice.record.Some? ==>
                    v.slice.record.value.id == ep.id
                    || (s.record.Some? && v.slice.record.value.id == s.record.value.id))
  {
    VisitFacts(kind, cfg, hasAdmin, ep, s, a);
    GuardHistory(s, a.wallClock);
    hide VisitEndpoint, Lower, Prune, CountRecent, VerifiedDisable, VerifiedEnable, GuardRecord;
    hide DisablePolicyConfirmed, RecordMove, RecordKept;
    var v := VisitEndpoint(kind, cfg, hasAdmin, ep, s, a);
    if v.Visited? {
      if VerifiedDisable(v, ep, a) {
        DisableMove(s, v.slice, ep.id, a.wallClock, cfg);
      } else if VerifiedEnable(v, ep, a) {
        EnableMove(s, v.slice, ep.id, a.wallClock);
      } else {
        KeptMove(s, v.slice, Lower(ep.id), a.wallClock);
      }
    }
  }

  lemma DisableMove(s: Slice, s': Slice, id: string, t: int, cfg: Configuration)
    requires s'.record.Some? && s'.record.value.disabled && s'.record.value.history == GuardRecord(s, t).history + [t]
    requires CountRecent(GuardRecord(s, t).history, t) < MAX_DISABLES_PER_WINDOW && !GuardRecord(s, t).leftEnabled
    ensures RecordMove(s.record, s'.record, [DidDisable(Lower(id), t, cfg.sampleRate, cfg.bitDepth)], Lower(id), t)
  {
    GuardHistory(s, t);
    hide Prune, CountRecent, Lower, GuardRecord;
  }

  lemma EnableMove(s: Slice, s': Slice, id: string, t: int)
    requires DisabledByUs(s) && s'.record == None
    ensures RecordMove(s.record, s'.record, [DidReenable(Lower(id))], Lower(id), t)
  {
    hide Prune, CountRecent, Lower;
  }

  lemma KeptMove(s: Slice, s': Slice, key: string, t: int)
    requires RecordKept(s, s', t)
    ensures RecordMove(s.record, s'.record,
                       if s'.record == None && s.record.Some? then [DidForget(key)] else [], key, t)
    ensures s'.record.Some? ==> s.record.Some? && s'.record.value.id == s.record.value.id
  {
    GuardHistory(s, t);
    hide Prune, CountRecent, GuardRecord;
  }

  lemma StepMoves(st: EngineState, op: Op, hasAdmin: bool, key: string)
    requires op.StepOp? && ValidOp(op) && WellKeyed(st.records)
    ensures WellKeyed(Apply(st, op, hasAdmin).records)
    ensures RecordMove(RecordOf(st, key), RecordOf(Apply(st, op, hasAdmin), key),
                       Deeds(st, op, hasAdmin), key, ClockOf(op))
  {
    hide VisitEndpoint, Lower, LoopKey, StepDeeds, RecordMove, VisitedState, Apply, Deeds;
    var StepOp(kind, cfg, interactive, ep, a) := op;
    var s := SliceOf(st, ep.id);
    var v := VisitAt(st, kind, cfg, hasAdmin, ep, a);
    SliceMoves(kind, cfg, hasAdmin, ep, s, a);
    StepDeedsShape(s, v, cfg, ep, a);
    StepIs(st, op, hasAdmin);
    VisitedRecords(st, ep.id, v, interactive);
    if key != Lower(ep.id) || !v.Visited? {
      OtherMove(RecordOf(st, key), StepDeeds(s, v, cfg, ep, a), Lower(ep.id), key, a.wallClock);
    }
  }

  lemma StepIs(st: EngineState, op: Op, hasAdmin: bool)
    requires op.StepOp?
    ensures var v := VisitAt(st, op.kind, op.cfg, hasAdmin, op.ep, op.answers);
            && Apply(st, op, hasAdmin) == VisitedState(st, op.ep.id, v, op.interactive)
            && Deeds(st, op, hasAdmin) == StepDeeds(SliceOf(st, op.ep.id), v, op.cfg, op.ep, op.answers)
  {
    hide VisitEndpoint, StepDeeds, VisitedState, SliceOf;
  }

  lemma VisitedRecords(st: EngineState, id: string, v: Visit, interactive: bool)
    ensures VisitedState(st, id, v, interactive).records
            == if v.Visited? then SetOpt(st.records, Lower(id), v.slice.record) else st.records
  {
    hide Lower, LoopKey, SetOpt;
  }

  lemma StepDeedsShape(s: Slice, v: Visit, cfg: Configuration, ep: AudioEndpoint, a: Answers)
    ensures var deeds := StepDeeds(s, v, cfg, ep, a);
            && |deeds| <= 1 && (deeds != [] ==> !deeds[0].DidReset? && deeds[0].key == Lower(ep.id))
            && (!v.Visited? ==> deeds == [])
  {
    hide Lower;
  }

  lemma OtherMove(record: Option<DisabledDeviceRecord>, deeds: seq<Deed>, k: string, key: string, now: int)
    requires |deeds| <= 1 && (deeds != [] ==> !deeds[0].DidReset? && deeds[0].key == k && k != key)
    ensures RecordMove(record, record, deeds, key, now)
  {
    hide Prune, CountRecent;
  }

  lemma GuardHistory(s: Slice, t: int)
    ensures GuardRecord(s, t).history == Prune(if s.record.Some? then s.record.value.history else [], t)
    ensures s.record.Some? ==>
              && GuardRecord(s, t).id == s.record.value.id
              && GuardRecord(s, t).leftEnabled == s.record.value.leftEnabled
              && (!GuardRecord(s, t).disabled ==>
                    GuardRecord(s, t) == s.record.value.(
                      history := Prune(s.record.value.history, t), disabled := false))
  {
    hide Prune;
  }

  lemma OpMoves(st: EngineState, op: Op, hasAdmin: bool, key: string)
    requires ValidOp(op) && WellKeyed(st.records)
    ensures WellKeyed(Apply(st, op, hasAdmin).records)
    ensures RecordMove(RecordOf(st, key), RecordOf(Apply(st, op, hasAdmin), key),
                       Deeds(st, op, hasAdmin), key, ClockOf(op))
  {
    if op.StepOp? {
      StepMoves(st, op, hasAdmin, key);
    } else {
      hide Lower, LoopKey, Prune, CountRecent, Contains, PreviewEndpoint;
    }
  }

  lemma {:induction false} RunWellKeyed(st: EngineState, ops: seq<Op>, hasAdmin: bool)
    requires Fresh(st) && ValidOps(ops)
    ensures WellKeyed(RunOps(st, ops, hasAdmin).state.records)
  {
    hide Apply, Deeds;
    if ops == [] {
    } else {
      var n := |ops| - 1;
      RunWellKeyed(st, ops[..n], hasAdmin);
      assert ValidOp(ops[n]);
      OpMoves(RunOps(st, ops[..n], hasAdmin).state, ops[n], hasAdmin, "");
    }
  }

  // ----- Ownership -----

  // The last change of the device's state by Audioslave was disabling it.
  predicate Owned(deeds: seq<Deed>, key: string) {
    if deeds == [] then false
    else
      var n := |deeds| - 1;
      match deeds[n]
      case DidDisable(k, _, _, _) => if k == key then true else Owned(deeds[..n], key)
      case DidReenable(k) => if k == key then false else Owned(deeds[..n], key)
      case DidUserEnable(k) => if k == key then false else Owned(deeds[..n], key)
      case _ => Owned(deeds[..n], key)
  }

  predicate Disables(d: Deed, key: string) { d.DidDisable? && d.key == key }

  predicate Enables(d: Deed, key: string) { (d.DidReenable? || d.DidUserEnable?) && d.key == key }

  // The disable at position i is the last change before position n.
  predicate LastDisable(deeds: seq<Deed>, key: string, i: nat) {
    i < |deeds| && Disables(deeds[i], key) && forall j :: i < j < |deeds| ==> !Enables(deeds[j], key)
  }

  lemma {:induction false} OwnedMeans(deeds: seq<Deed>, key: string)
    ensures Owned(deeds, key) <==> exists i: nat :: LastDisable(deeds, key, i)
  {
    if deeds == [] {
    } else {
      var n := |deeds| - 1;
      var front := deeds[..n];
      OwnedMeans(front, key);
      if i: nat :| LastDisable(front, key, i) {
        assert !Enables(deeds[n], key) ==> LastDisable(deeds, key, i);
      }
      if i: nat :| LastDisable(deeds, key, i) {
        assert i < n ==> LastDisable(front, key, i);
        assert i < n ==> !Enables(deeds[n], key);
      }
      if Disables(deeds[n], key) {
        assert LastDisable(deeds, key, n);
      }
    }
  }

  // Every record marked disabled is backed by such a disable.
  lemma {:induction false} RecordsAreOwned(st: EngineState, ops: seq<Op>, hasAdmin: bool, key: string)
    requires Fresh(st) && ValidOps(ops)
    ensures var r := RunOps(st, ops, hasAdmin);
            var record := RecordOf(r.state, key);
            record.Some? && record.value.disabled ==> Owned(r.deeds, key)
  {
    hide Apply, Deeds, Prune, CountRecent;
    if ops == [] {
    } else {
      var n := |ops| - 1;
      var r := RunOps(st, ops[..n], hasAdmin);
      RecordsAreOwned(st, ops[..n], hasAdmin, key);
      RunWellKeyed(st, ops[..n], hasAdmin);
      assert ValidOp(ops[n]);
      OpMoves(r.state, ops[n], hasAdmin, key);
      OwnedStep(r.deeds, Deeds(r.state, ops[n], hasAdmin), key);
    }
  }

  lemma OwnedStep(deeds: seq<Deed>, more: seq<Deed>, key: string)
    requires |more| <= 1
    ensures more == [] ==> Owned(deeds + more, key) == Owned(deeds, key)
    ensures more != [] && Disables(more[0], key) ==> Owned(deeds + more, key)
    ensures more != [] && !Disables(more[0], key) && !Enables(more[0], key) ==>
              Owned(deeds + more, key) == Owned(deeds, key)
  {
    if more == [] {
      assert deeds + more == deeds;
    } else {
      assert (deeds + more)[..|deeds|] == deeds;
    }
  }

  // Audioslave only re-enables devices it disabled itself: every verified
  // re-enable of a pass has an earlier verified disable of that device with no
  // enable by Audioslave in between, so no two re-enables share one.
  lemma {:induction false} ReenablesAreOwned(st: EngineState, ops: seq<Op>, hasAdmin: bool)
    requires Fresh(st) && ValidOps(ops)
    ensures var deeds := RunOps(st, ops, hasAdmin).deeds;
            forall i :: 0 <= i < |deeds| && deeds[i].DidReenable? ==>
              exists j: nat :: LastDisable(deeds[..i], deeds[i].key, j)
  {
    hide Apply, Deeds, Prune, CountRecent, Owned, LastDisable;
    if ops == [] {
    } else {
      var n := |ops| - 1;
      var r := RunOps(st, ops[..n], hasAdmin);
      ReenablesAreOwned(st, ops[..n], hasAdmin);
      RunWellKeyed(st, ops[..n], hasAdmin);
      var more := Deeds(r.state, ops[n], hasAdmin);
      var deeds := r.deeds + more;
      assert ValidOp(ops[n]);
      OpMoves(r.state, ops[n], hasAdmin, "");
      forall i | 0 <= i < |deeds| && deeds[i].DidReenable?
        ensures exists j: nat :: LastDisable(deeds[..i], deeds[i].key, j)
      {
        if i < |r.deeds| {
          assert deeds[..i] == r.deeds[..i] && deeds[i] == r.deeds[i];
        } else {
          var key := deeds[i].key;
          assert i == |r.deeds| && deeds[..i] == r.deeds && more[0] == deeds[i];
          OpMoves(r.state, ops[n], hasAdmin, key);
          RecordsAreOwned(st, ops[..n], hasAdmin, key);
          OwnedMeans(r.deeds, key);
        }
      }
    }
  }

  // Two re-enables of a device never go back to the same disable.
  lemma ReenablesAreDistinct(deeds: seq<Deed>, i: nat, i': nat, j: nat)
    requires i < i' < |deeds| && deeds[i].DidReenable? && deeds[i'].DidReenable? && deeds[i].key == deeds[i'].key
    requires LastDisable(deeds[..i], deeds[i].key, j)
    ensures !LastDisable(deeds[..i'], deeds[i'].key, j)
  {
    assert deeds[..i'][i] == deeds[i] && Enables(deeds[..i'][i], deeds[i].key);
  }

  // ----- The user's decision -----

  // Enabled by the user from the window, and not disabled since.
  predicate LeftAlone(record: Option<DisabledDeviceRecord>) {
    record.Some? && record.value.leftEnabled && !record.value.disabled
  }

  // A policy change, or the device being back at the target, ends the decision.
  predicate EndsDecision(d: Deed, key: string) { d.DidReset? || (d.DidForget? && d.key == key) }

  lemma DecisionStep(before: Option<DisabledDeviceRecord>, after: Option<DisabledDeviceRecord>, deeds: seq<Deed>,
                     key: string, now: int)
    requires RecordMove(before, after, deeds, key, now) && LeftAlone(before)
    requires deeds == [] || !EndsDecision(deeds[0], key)
    ensures LeftAlone(after) && |deeds| <= 1
    ensures deeds == [] || (!Disables(deeds[0], key) && !(deeds[0].DidReenable? && deeds[0].key == key))
  {
    hide Prune, CountRecent;
  }

  // A device that the user enabled again is left enabled: until the policy
  // changes or the device is back at the target, no pass disables it, nor
  // takes it for one to enable.
  lemma {:induction false} UserDecisionHolds(st: EngineState, ops: seq<Op>, hasAdmin: bool, key: string)
    requires ValidOps(ops) && WellKeyed(st.records) && LeftAlone(RecordOf(st, key))
    requires forall d <- RunOps(st, ops, hasAdmin).deeds :: !EndsDecision(d, key)
    ensures var r := RunOps(st, ops, hasAdmin);
            && LeftAlone(RecordOf(r.state, key)) && WellKeyed(r.state.records)
            && forall i :: 0 <= i < |r.deeds| ==>
                 !Disables(r.deeds[i], key) && !(r.deeds[i].DidReenable? && r.deeds[i].key == key)
  {
    var all := RunOps(st, ops, hasAdmin).deeds;
    hide Apply, Deeds, RecordMove, LeftAlone, WellKeyed, Disables;
    if ops == [] {
    } else {
      var n := |ops| - 1;
      var before := RunOps(st, ops[..n], hasAdmin);
      var more := Deeds(before.state, ops[n], hasAdmin);
      assert all == before.deeds + more;
      assert forall i :: 0 <= i < |before.deeds| ==> before.deeds[i] == all[i];
      UserDecisionHolds(st, ops[..n], hasAdmin, key);
      assert ValidOp(ops[n]);
      OpMoves(before.state, ops[n], hasAdmin, key);
      assert more != [] ==> more[0] == all[|before.deeds|];
      DecisionStep(RecordOf(before.state, key), RecordOf(Apply(before.state, ops[n], hasAdmin), key), more, key,
                   ClockOf(ops[n]));
    }
  }

  // A verified enable by the user starts the decision exactly when Audioslave
  // has a record of the device; without one nothing is remembered, and a later
  // pass may disable it.
  lemma UserEnableDecides(st: EngineState, id: string, a: EnableAnswers)
    ensures var after := Apply(st, EnableOp(id, a), true);
            && (EnableSucceeds(a) ==> (LeftAlone(RecordOf(after, Lower(id))) <==> RecordOf(st, Lower(id)).Some?))
            && (!EnableSucceeds(a) || RecordOf(st, Lower(id)).None? ==> after == st)
  {
    hide Lower;
  }
}
