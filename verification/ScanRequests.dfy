// No scan request is lost (src/core/WatchdogEngine.cpp: run, requestRescan,
// requestFullScan, pause, resume) as long as no resume takes effect between a
// pause taking effect and lowering its flag; and how one is lost when it does.

module ScanRequests {
  import opened EngineThreads

  // ----- Roles -----

  predicate StopsAt(pc: Pc) { pc.StopExit? || pc.StopNotify? || pc.StopJoin? }

  // The worker runs its loop and its passes; only a stop makes it exit.
  predicate RoleOf(h: Shared, t: ThreadId, pc: Pc) {
    && (t == WORKER <==> IsLoop(pc) || (t == WORKER && IsPass(pc)))
    && (StopsAt(pc) || pc.Dead? || h.worker.exit ==> Ending(h))
  }

  ghost predicate Roles(s: State) { forall t: ThreadId :: RoleOf(s.shared, t, PcOf(s, t)) }

  predicate RoleMoves(h: Shared, t: ThreadId, pc: Pc, n: Next) {
    RoleOf(n.shared, t, n.pc) && (Ending(h) ==> Ending(n.shared)) && (n.shared.worker.exit ==> Ending(n.shared))
  }

  lemma PassRole(h: Shared, t: ThreadId, pc: Pc, c: Choice)
    requires RoleOf(h, t, pc) && IsPass(pc)
    ensures RoleMoves(h, t, pc, PassStep(h, t, pc, c))
  {
  }

  lemma LoopRole(h: Shared, pc: Pc, c: Choice)
    requires RoleOf(h, WORKER, pc) && IsLoop(pc)
    ensures RoleMoves(h, WORKER, pc, WorkerStep(h, pc, c))
  {
  }

  lemma BeginRole(h: Shared, t: ThreadId, c: Choice, serialised: bool)
    requires RoleOf(h, t, Idle)
    ensures RoleMoves(h, t, Idle, BeginStep(h, t, c, serialised))
  {
  }

  lemma PauseRole(h: Shared, t: ThreadId, pc: Pc)
    requires RoleOf(h, t, pc) && IsPause(pc)
    ensures RoleMoves(h, t, pc, PauseStep(h, t, pc))
  {
  }

  lemma ResumeRole(h: Shared, t: ThreadId, pc: Pc)
    requires RoleOf(h, t, pc) && IsResume(pc)
    ensures RoleMoves(h, t, pc, ResumeStep(h, t, pc))
  {
  }

  lemma RequestRole(h: Shared, t: ThreadId, pc: Pc)
    requires RoleOf(h, t, pc) && IsRequest(pc)
    ensures RoleMoves(h, t, pc, RequestStep(h, t, pc))
  {
  }

  lemma StopRole(h: Shared, t: ThreadId, pc: Pc)
    requires RoleOf(h, t, pc) && IsStop(pc)
    ensures RoleMoves(h, t, pc, StopStep(h, pc))
  {
  }

  lemma StepRole(h: Shared, t: ThreadId, pc: Pc, c: Choice, serialised: bool)
    requires RoleOf(h, t, pc)
    ensures RoleMoves(h, t, pc, StepOf(h, t, pc, c, serialised))
  {
    hide BeginStep, PassStep, PauseStep, ResumeStep, RequestStep, StopStep, WorkerStep, RoleMoves;
    if pc.Idle? {
      BeginRole(h, t, c, serialised);
    } else if IsPass(pc) {
      PassRole(h, t, pc, c);
    } else if IsPause(pc) {
      PauseRole(h, t, pc);
    } else if IsResume(pc) {
      ResumeRole(h, t, pc);
    } else if IsRequest(pc) {
      RequestRole(h, t, pc);
    } else if IsStop(pc) {
      StopRole(h, t, pc);
    } else {
      LoopRole(h, pc, c);
    }
  }

  lemma RolesStep(s: State, t: ThreadId, c: Choice, serialised: bool)
    requires Roles(s)
    ensures Roles(Advance(s, t, c, serialised))
  {
    var n := StepOf(s.shared, t, PcOf(s, t), c, serialised);
    var s' := Advance(s, t, c, serialised);
    assert RoleOf(s.shared, t, PcOf(s, t));
    StepRole(s.shared, t, PcOf(s, t), c, serialised);
    hide StepOf, IsLoop, IsPass;
    forall u: ThreadId
      ensures RoleOf(s'.shared, u, PcOf(s', u))
    {
      assert RoleOf(s.shared, u, PcOf(s, u));
    }
  }

  lemma {:induction false} RolesAlways(schedule: Schedule, serialised: bool)
    ensures Roles(Execute(INITIAL, schedule, serialised))
  {
    hide Advance;
    if schedule == [] {
    } else {
      var n := |schedule| - 1;
      RolesAlways(schedule[..n], serialised);
      RolesStep(Execute(INITIAL, schedule[..n], serialised), schedule[n].0, schedule[n].1, serialised);
    }
  }

  // ----- Pauses and resumes that stay apart -----

  // No resume takes effect while a pause has taken effect and not lowered its
  // flag. (A pause may wait for the lock meanwhile.)
  ghost predicate Apart(s: State, t: ThreadId) { Resumes(s, t) ==> forall u: ThreadId :: !PauseTail(PcOf(s, u)) }

  ghost predicate Separate(schedule: Schedule, serialised: bool) {
    forall k :: 0 <= k < |schedule| ==> Apart(Execute(INITIAL, schedule[..k], serialised), schedule[k].0)
  }

  lemma SeparateFront(schedule: Schedule, serialised: bool)
    requires schedule != [] && Separate(schedule, serialised)
    ensures var n := |schedule| - 1;
            && Separate(schedule[..n], serialised)
            && Apart(Execute(INITIAL, schedule[..n], serialised), schedule[n].0)
  {
    hide Execute, Apart;
    var n := |schedule| - 1;
    assert forall k :: 0 <= k < n ==> schedule[..n][..k] == schedule[..k] && schedule[..n][k] == schedule[k];
  }

  // Pausing and resuming under one lock keeps them apart.
  lemma {:induction false} SerialisedIsSeparate(schedule: Schedule)
    ensures Separate(schedule, true)
  {
    forall k | 0 <= k < |schedule|
      ensures Apart(Execute(INITIAL, schedule[..k], true), schedule[k].0)
    {
      var s, t := Execute(INITIAL, schedule[..k], true), schedule[k].0;
      ControlAlways(schedule[..k]);
      hide Execute;
      if Resumes(s, t) {
        assert ControlOf(s.shared, t, PcOf(s, t));
        forall u: ThreadId
          ensures !PauseTail(PcOf(s, u))
        {
          assert ControlOf(s.shared, u, PcOf(s, u));
        }
      }
    }
  }

  // A pause that took effect keeps the engine from running, and the flag is
  // only up while some pause has it raised.
  ghost predicate Tails(s: State) { forall t: ThreadId :: PauseTail(PcOf(s, t)) ==> !s.shared.mode.Running? }

  ghost predicate FlagHeld(s: State) { s.shared.flags.pauseRequested ==> exists t: ThreadId :: Raised(PcOf(s, t)) }

  predicate TailMoves(h: Shared, pc: Pc, n: Next) {
    && (PauseTail(n.pc) ==> !n.shared.mode.Running? || (PauseTail(pc) && h.mode.Running?))
    && (n.shared.flags.pauseRequested ==> Raised(n.pc) || (h.flags.pauseRequested && !Raised(pc)))
  }

  lemma PauseTails(h: Shared, t: ThreadId, pc: Pc)
    requires IsPause(pc)
    ensures TailMoves(h, pc, PauseStep(h, t, pc))
  {
  }

  lemma PassTails(h: Shared, t: ThreadId, pc: Pc, c: Choice)
    requires IsPass(pc)
    ensures TailMoves(h, pc, PassStep(h, t, pc, c))
  {
  }

  lemma LoopTails(h: Shared, pc: Pc, c: Choice)
    requires IsLoop(pc)
    ensures TailMoves(h, pc, WorkerStep(h, pc, c))
  {
  }

  lemma CallTails(h: Shared, t: ThreadId, pc: Pc, c: Choice, serialised: bool)
    ensures TailMoves(h, Idle, BeginStep(h, t, c, serialised))
    ensures IsResume(pc) ==> TailMoves(h, pc, ResumeStep(h, t, pc))
  {
  }

  lemma RequestTails(h: Shared, t: ThreadId, pc: Pc)
    ensures IsRequest(pc) ==> TailMoves(h, pc, RequestStep(h, t, pc))
    ensures IsStop(pc) ==> TailMoves(h, pc, StopStep(h, pc))
  {
  }

  lemma StepTails(h: Shared, t: ThreadId, pc: Pc, c: Choice, serialised: bool)
    ensures TailMoves(h, pc, StepOf(h, t, pc, c, serialised))
  {
    hide BeginStep, PassStep, PauseStep, ResumeStep, RequestStep, StopStep, WorkerStep, TailMoves;
    if IsPass(pc) {
      PassTails(h, t, pc, c);
    } else if IsPause(pc) {
      PauseTails(h, t, pc);
    } else if IsLoop(pc) {
      LoopTails(h, pc, c);
    } else {
      CallTails(h, t, pc, c, serialised);
      RequestTails(h, t, pc);
    }
  }

  lemma TailsStep(s: State, t: ThreadId, c: Choice, serialised: bool)
    requires Tails(s) && FlagHeld(s) && Apart(s, t)
    ensures Tails(Advance(s, t, c, serialised)) && FlagHeld(Advance(s, t, c, serialised))
  {
    var h, pc, s' := s.shared, PcOf(s, t), Advance(s, t, c, serialised);
    hide StepOf, Raised, PauseTail;
    StepTails(h, t, pc, c, serialised);
    PauseLasts(h, t, pc, c, serialised);
    assert forall u: ThreadId :: u != t ==> PcOf(s', u) == PcOf(s, u);
    assert PcOf(s', t) == StepOf(h, t, pc, c, serialised).pc;
    if s'.shared.flags.pauseRequested && !Raised(PcOf(s', t)) {
      var u: ThreadId :| Raised(PcOf(s, u));
      assert u != t && Raised(PcOf(s', u));
    }
  }

  lemma {:induction false} TailsAlways(schedule: Schedule, serialised: bool)
    requires Separate(schedule, serialised)
    ensures Tails(Execute(INITIAL, schedule, serialised)) && FlagHeld(Execute(INITIAL, schedule, serialised))
  {
    if schedule == [] {
    } else {
      hide Advance, Tails, FlagHeld, Separate, Apart;
      var n := |schedule| - 1;
      SeparateFront(schedule, serialised);
      TailsAlways(schedule[..n], serialised);
      TailsStep(Execute(INITIAL, schedule[..n], serialised), schedule[n].0, schedule[n].1, serialised);
    }
  }

  // ----- Where a request is -----

  // The worker will enumerate the devices before it waits again.
  predicate OnTheWay(pc: Pc) {
    || pc.Woken? || pc.Exchange? || pc.Debounce? || pc.DebounceWoken? || pc.Settle? || pc.TakeKind? || pc.Periodic?
    || BeforePass(pc)
  }

  predicate BeforePass(pc: Pc) {
    pc.Top? || pc.TopState? || pc.TopFlag? || pc.PassState? || pc.PassFlag? || pc.PassLock? || pc.PassEnumerate?
  }

  predicate InPass(pc: Pc) { pc.PassNext? || pc.PassCheckState? || pc.PassCheckFlag? || pc.PassWriting? }

  // The next pass is a full one.
  predicate FullOnTheWay(pc: Pc, fullKind: bool) {
    pc.Periodic? || (pc.Woken? && !pc.signalled) || (BeforePass(pc) && fullKind)
  }

  // The kind of the next pass is still to be chosen.
  predicate Choosing(pc: Pc) {
    (pc.Woken? && pc.signalled) || pc.Exchange? || pc.Debounce? || pc.DebounceWoken? || pc.Settle? || pc.TakeKind?
  }

  // About to pause; just resumed, and about to set the first or the second
  // flag of the full scan; between the flags of a request; about to wake.
  predicate PauseComing(pc: Pc) { pc.PauseLock? || pc.PauseCas? }
  predicate Resumed(pc: Pc) { pc.ResumeClear? || (pc.SetFull? && pc.resuming) }
  predicate Requesting(pc: Pc) { pc.SetPending? && pc.resuming }

  // Whether some thread is there.
  datatype Askers = Askers(pausing: bool, resumed: bool, requesting: bool, setting: bool, notifying: bool)

  predicate Excused(h: Shared, k: Askers) { !h.mode.Running? || k.pausing || k.resumed || k.requesting }

  predicate FullExcused(h: Shared, k: Askers) { !h.mode.Running? || k.pausing || k.resumed }

  predicate WakeUp(h: Shared, k: Askers) { h.flags.rescanPending && (h.worker.signal || k.notifying) }

  // A request owed is pending with its wake-up set or about to be set, or a
  // pass that will answer it is on its way.
  predicate Kept(h: Shared, worker: Pc, k: Askers) {
    && (h.notes.owed ==> Excused(h, k) || OnTheWay(worker) || WakeUp(h, k))
    && (h.notes.covered ==> InPass(worker))
  }

  // A full request owed will be answered by a full pass.
  predicate FullKept(h: Shared, worker: Pc, k: Askers) {
    && (h.notes.owedFull ==>
          || FullExcused(h, k)
          || FullOnTheWay(worker, h.flags.fullKind)
          || (h.flags.fullPending && (Choosing(worker) || k.setting || WakeUp(h, k))))
    && (h.notes.coveredFull ==> InPass(worker) && h.flags.fullKind)
  }

  // How the step of one thread changes the askers.
  predicate Follows(before: bool, was: bool, now: bool, after: bool) { (now ==> after) && (before && !was ==> after) }

  predicate AskersMove(k: Askers, pc: Pc, n: Next, k': Askers) {
    && Follows(k.pausing, PauseComing(pc), PauseComing(n.pc), k'.pausing)
    && Follows(k.resumed, Resumed(pc), Resumed(n.pc), k'.resumed)
    && Follows(k.requesting, Requesting(pc), Requesting(n.pc), k'.requesting)
    && Follows(k.setting, pc.SetPending?, n.pc.SetPending?, k'.setting)
    && Follows(k.notifying, pc.Notify?, n.pc.Notify?, k'.notifying)
  }

  // The flag is up only when the engine does not run or is about to pause.
  predicate FlagExcuses(h: Shared, k: Askers) { h.flags.pauseRequested ==> !h.mode.Running? || k.pausing }

  // The worker's steps.
  lemma LoopKeeps(h: Shared, pc: Pc, c: Choice, k: Askers, k': Askers)
    requires RoleOf(h, WORKER, pc) && FlagExcuses(h, k) && IsLoop(pc) && Kept(h, pc, k)
    requires AskersMove(k, pc, WorkerStep(h, pc, c), k')
    ensures var n := WorkerStep(h, pc, c); Kept(n.shared, n.pc, k')
  {
  }

  lemma LoopKeepsFull(h: Shared, pc: Pc, c: Choice, k: Askers, k': Askers)
    requires RoleOf(h, WORKER, pc) && FlagExcuses(h, k) && IsLoop(pc) && FullKept(h, pc, k)
    requires AskersMove(k, pc, WorkerStep(h, pc, c), k')
    ensures var n := WorkerStep(h, pc, c); FullKept(n.shared, n.pc, k')
  {
  }

  lemma OwnPassKeeps(h: Shared, pc: Pc, c: Choice, k: Askers, k': Askers)
    requires FlagExcuses(h, k) && IsPass(pc) && Kept(h, pc, k)
    requires AskersMove(k, pc, PassStep(h, WORKER, pc, c), k')
    ensures var n := PassStep(h, WORKER, pc, c); Kept(n.shared, n.pc, k')
  {
  }

  lemma OwnPassKeepsFull(h: Shared, pc: Pc, c: Choice, k: Askers, k': Askers)
    requires FlagExcuses(h, k) && IsPass(pc) && FullKept(h, pc, k)
    requires AskersMove(k, pc, PassStep(h, WORKER, pc, c), k')
    ensures var n := PassStep(h, WORKER, pc, c); FullKept(n.shared, n.pc, k')
  {
  }

  // A step of another thread that does not touch what requests are made of.
  predicate SameDebts(a: Notes, b: Notes) {
    a.owed == b.owed && a.owedFull == b.owedFull && a.covered == b.covered && a.coveredFull == b.coveredFull
  }

  predicate Aside(h: Shared, pc: Pc, n: Next) {
    && n.shared.flags == h.flags && SameDebts(h.notes, n.shared.notes)
    && (h.worker.signal ==> n.shared.worker.signal)
    && (n.shared.mode.Running? ==> h.mode.Running?) && (pc.Idle? || IsPass(pc) || IsStop(pc))
  }

  lemma AsideKeeps(h: Shared, worker: Pc, k: Askers, pc: Pc, n: Next, k': Askers)
    requires Kept(h, worker, k) && Aside(h, pc, n) && AskersMove(k, pc, n, k')
    ensures Kept(n.shared, worker, k')
  {
    hide OnTheWay, InPass, BeforePass, Choosing, FullOnTheWay;
  }

  lemma AsideKeepsFull(h: Shared, worker: Pc, k: Askers, pc: Pc, n: Next, k': Askers)
    requires FullKept(h, worker, k) && Aside(h, pc, n) && AskersMove(k, pc, n, k')
    ensures FullKept(n.shared, worker, k')
  {
    hide OnTheWay, InPass, BeforePass, Choosing, FullOnTheWay;
  }

  lemma OtherAside(h: Shared, t: ThreadId, pc: Pc, c: Choice, serialised: bool)
    requires t != WORKER
    ensures IsPass(pc) ==> Aside(h, pc, PassStep(h, t, pc, c))
    ensures Aside(h, Idle, BeginStep(h, t, c, serialised))
  {
  }

  lemma StopAside(h: Shared, pc: Pc)
    requires IsStop(pc)
    ensures Aside(h, pc, StopStep(h, pc))
  {
  }

  // The steps of pausing, resuming and requesting.
  lemma PauseKeeps(h: Shared, t: ThreadId, pc: Pc, worker: Pc, k: Askers, k': Askers)
    requires IsPause(pc) && Kept(h, worker, k)
    requires AskersMove(k, pc, PauseStep(h, t, pc), k')
    ensures var n := PauseStep(h, t, pc); Kept(n.shared, worker, k')
  {
    hide OnTheWay, InPass, BeforePass, Choosing, FullOnTheWay;
  }

  lemma PauseKeepsFull(h: Shared, t: ThreadId, pc: Pc, worker: Pc, k: Askers, k': Askers)
    requires IsPause(pc) && FullKept(h, worker, k)
    requires AskersMove(k, pc, PauseStep(h, t, pc), k')
    ensures var n := PauseStep(h, t, pc); FullKept(n.shared, worker, k')
  {
    hide OnTheWay, InPass, BeforePass, Choosing, FullOnTheWay;
  }

  lemma ResumeKeeps(h: Shared, t: ThreadId, pc: Pc, worker: Pc, k: Askers, k': Askers)
    requires IsResume(pc) && Kept(h, worker, k)
    requires AskersMove(k, pc, ResumeStep(h, t, pc), k')
    ensures var n := ResumeStep(h, t, pc); Kept(n.shared, worker, k')
  {
    hide OnTheWay, InPass, BeforePass, Choosing, FullOnTheWay;
  }

  lemma ResumeKeepsFull(h: Shared, t: ThreadId, pc: Pc, worker: Pc, k: Askers, k': Askers)
    requires IsResume(pc) && FullKept(h, worker, k)
    requires AskersMove(k, pc, ResumeStep(h, t, pc), k')
    ensures var n := ResumeStep(h, t, pc); FullKept(n.shared, worker, k')
  {
    hide OnTheWay, InPass, BeforePass, Choosing, FullOnTheWay;
  }

  lemma RequestKeeps(h: Shared, t: ThreadId, pc: Pc, worker: Pc, k: Askers, k': Askers)
    requires IsRequest(pc) && Kept(h, worker, k)
    requires AskersMove(k, pc, RequestStep(h, t, pc), k')
    ensures var n := RequestStep(h, t, pc); Kept(n.shared, worker, k')
  {
    hide OnTheWay, InPass, BeforePass, Choosing, FullOnTheWay;
  }

  lemma RequestKeepsFull(h: Shared, t: ThreadId, pc: Pc, worker: Pc, k: Askers, k': Askers)
    requires IsRequest(pc) && FullKept(h, worker, k)
    requires AskersMove(k, pc, RequestStep(h, t, pc), k')
    ensures var n := RequestStep(h, t, pc); FullKept(n.shared, worker, k')
  {
    hide OnTheWay, InPass, BeforePass, Choosing, FullOnTheWay;
  }

  // ----- Any step -----

  function WorkerAfter(t: ThreadId, worker: Pc, n: Next): Pc { if t == WORKER then n.pc else worker }

  lemma StepKeeps(h: Shared, t: ThreadId, pc: Pc, c: Choice, worker: Pc, k: Askers, k': Askers, serialised: bool)
    requires RoleOf(h, t, pc) && FlagExcuses(h, k) && (t == WORKER ==> worker == pc) && Kept(h, worker, k)
    requires AskersMove(k, pc, StepOf(h, t, pc, c, serialised), k')
    ensures var n := StepOf(h, t, pc, c, serialised); Kept(n.shared, WorkerAfter(t, worker, n), k')
  {
    hide BeginStep, PassStep, PauseStep, ResumeStep, RequestStep, StopStep, WorkerStep, Aside, Kept, AskersMove;
    hide FlagExcuses;
    if t == WORKER {
      if IsPass(pc) {
        OwnPassKeeps(h, pc, c, k, k');
      } else {
        LoopKeeps(h, pc, c, k, k');
      }
    } else if IsPause(pc) {
      PauseKeeps(h, t, pc, worker, k, k');
    } else if IsResume(pc) {
      ResumeKeeps(h, t, pc, worker, k, k');
    } else if IsRequest(pc) {
      RequestKeeps(h, t, pc, worker, k, k');
    } else {
      OtherAside(h, t, pc, c, serialised);
      if IsStop(pc) {
        StopAside(h, pc);
      }
      AsideKeeps(h, worker, k, pc, StepOf(h, t, pc, c, serialised), k');
    }
  }

  lemma StepKeepsFull(h: Shared, t: ThreadId, pc: Pc, c: Choice, worker: Pc, k: Askers, k': Askers, serialised: bool)
    requires RoleOf(h, t, pc) && FlagExcuses(h, k) && (t == WORKER ==> worker == pc) && FullKept(h, worker, k)
    requires AskersMove(k, pc, StepOf(h, t, pc, c, serialised), k')
    ensures var n := StepOf(h, t, pc, c, serialised); FullKept(n.shared, WorkerAfter(t, worker, n), k')
  {
    hide BeginStep, PassStep, PauseStep, ResumeStep, RequestStep, StopStep, WorkerStep, Aside, FullKept, AskersMove;
    hide FlagExcuses;
    if t == WORKER {
      if IsPass(pc) {
        OwnPassKeepsFull(h, pc, c, k, k');
      } else {
        LoopKeepsFull(h, pc, c, k, k');
      }
    } else if IsPause(pc) {
      PauseKeepsFull(h, t, pc, worker, k, k');
    } else if IsResume(pc) {
      ResumeKeepsFull(h, t, pc, worker, k, k');
    } else if IsRequest(pc) {
      RequestKeepsFull(h, t, pc, worker, k, k');
    } else {
      OtherAside(h, t, pc, c, serialised);
      if IsStop(pc) {
        StopAside(h, pc);
      }
      AsideKeepsFull(h, worker, k, pc, StepOf(h, t, pc, c, serialised), k');
    }
  }

  // ----- Every interleaving -----

  ghost predicate SomePausing(s: State) { exists u: ThreadId :: PauseComing(PcOf(s, u)) }

  ghost predicate SomeResumed(s: State) { exists u: ThreadId :: Resumed(PcOf(s, u)) }

  ghost predicate SomeRequesting(s: State) { exists u: ThreadId :: Requesting(PcOf(s, u)) }

  ghost predicate SomeSetting(s: State) { exists u: ThreadId :: PcOf(s, u).SetPending? }

  ghost predicate SomeNotifying(s: State) { exists u: ThreadId :: PcOf(s, u).Notify? }

  ghost function AskersOf(s: State): Askers {
    Askers(SomePausing(s), SomeResumed(s), SomeRequesting(s), SomeSetting(s), SomeNotifying(s))
  }

  ghost predicate NoRequestLost(s: State) { Kept(s.shared, PcOf(s, WORKER), AskersOf(s)) }

  ghost predicate NoFullRequestLost(s: State) { FullKept(s.shared, PcOf(s, WORKER), AskersOf(s)) }

  lemma AskersFollow(s: State, t: ThreadId, c: Choice, serialised: bool)
    ensures AskersMove(AskersOf(s), PcOf(s, t), StepOf(s.shared, t, PcOf(s, t), c, serialised),
                      AskersOf(Advance(s, t, c, serialised)))
  {
    hide StepOf, PauseComing, Resumed, Requesting, SomePausing, SomeResumed, SomeRequesting, SomeSetting, SomeNotifying;
    PausersFollow(s, t, c, serialised);
    RequestersFollow(s, t, c, serialised);
  }

  lemma PausersFollow(s: State, t: ThreadId, c: Choice, serialised: bool)
    ensures var n, s' := StepOf(s.shared, t, PcOf(s, t), c, serialised), Advance(s, t, c, serialised);
            && Follows(SomePausing(s), PauseComing(PcOf(s, t)), PauseComing(n.pc), SomePausing(s'))
            && Follows(SomeResumed(s), Resumed(PcOf(s, t)), Resumed(n.pc), SomeResumed(s'))
  {
    var n, s' := StepOf(s.shared, t, PcOf(s, t), c, serialised), Advance(s, t, c, serialised);
    hide StepOf, PauseComing, Resumed;
    assert PcOf(s', t) == n.pc;
    if u: ThreadId :| PauseComing(PcOf(s, u)) && u != t {
      assert PauseComing(PcOf(s', u));
    }
    if u: ThreadId :| Resumed(PcOf(s, u)) && u != t {
      assert Resumed(PcOf(s', u));
    }
  }

  lemma RequestersFollow(s: State, t: ThreadId, c: Choice, serialised: bool)
    ensures var n, s' := StepOf(s.shared, t, PcOf(s, t), c, serialised), Advance(s, t, c, serialised);
            && Follows(SomeRequesting(s), Requesting(PcOf(s, t)), Requesting(n.pc), SomeRequesting(s'))
            && Follows(SomeSetting(s), PcOf(s, t).SetPending?, n.pc.SetPending?, SomeSetting(s'))
            && Follows(SomeNotifying(s), PcOf(s, t).Notify?, n.pc.Notify?, SomeNotifying(s'))
  {
    var n, s' := StepOf(s.shared, t, PcOf(s, t), c, serialised), Advance(s, t, c, serialised);
    hide StepOf, Requesting;
    assert PcOf(s', t) == n.pc;
    if u: ThreadId :| Requesting(PcOf(s, u)) && u != t {
      assert Requesting(PcOf(s', u));
    }
    if u: ThreadId :| PcOf(s, u).Notify? && u != t {
      assert PcOf(s', u).Notify?;
    }
    if u: ThreadId :| PcOf(s, u).SetPending? && u != t {
      assert PcOf(s', u).SetPending?;
    }
  }

  lemma FlagIsExcused(s: State)
    requires Tails(s) && FlagHeld(s)
    ensures FlagExcuses(s.shared, AskersOf(s))
  {
    if s.shared.flags.pauseRequested {
      var u: ThreadId :| Raised(PcOf(s, u));
      assert PauseComing(PcOf(s, u)) || PauseTail(PcOf(s, u));
    }
    hide SomeResumed, SomeRequesting, SomeSetting, SomeNotifying;
  }

  // In every interleaving in which pauses and resumes stay apart, a scan
  // request that was set and not answered yet is still pending with its
  // wake-up set or about to be set, or the pass that will answer it is on its
  // way, unless the engine does not run or is just about to be paused or to
  // get the full scan of a resume.
  lemma {:induction false} NoRequestIsLost(schedule: Schedule, serialised: bool)
    requires serialised || Separate(schedule, serialised)
    ensures NoRequestLost(Execute(INITIAL, schedule, serialised))
    ensures NoFullRequestLost(Execute(INITIAL, schedule, serialised))
  {
    hide Advance, Kept, FullKept, Separate, Apart;
    if schedule == [] {
      NothingAsked();
    } else {
      if serialised {
        SerialisedIsSeparate(schedule);
      }
      var n := |schedule| - 1;
      SeparateFront(schedule, serialised);
      NoRequestIsLost(schedule[..n], serialised);
      LostByNoStep(schedule[..n], schedule[n].0, schedule[n].1, serialised);
    }
  }

  lemma NothingAsked()
    ensures NoRequestLost(INITIAL) && NoFullRequestLost(INITIAL)
  {
    hide SomePausing, SomeResumed, SomeRequesting, SomeSetting, SomeNotifying;
  }

  lemma LostByNoStep(before: Schedule, t: ThreadId, c: Choice, serialised: bool)
    requires Separate(before, serialised)
    requires NoRequestLost(Execute(INITIAL, before, serialised))
    requires NoFullRequestLost(Execute(INITIAL, before, serialised))
    ensures NoRequestLost(Advance(Execute(INITIAL, before, serialised), t, c, serialised))
    ensures NoFullRequestLost(Advance(Execute(INITIAL, before, serialised), t, c, serialised))
  {
    var s := Execute(INITIAL, before, serialised);
    RolesAlways(before, serialised);
    TailsAlways(before, serialised);
    assert RoleOf(s.shared, t, PcOf(s, t));
    hide Execute, Kept, FullKept, AskersMove, Tails, FlagHeld, Roles, RoleOf, AskersOf, StepOf, Separate, FlagExcuses;
    FlagIsExcused(s);
    AskersFollow(s, t, c, serialised);
    var k, k' := AskersOf(s), AskersOf(Advance(s, t, c, serialised));
    StepKeeps(s.shared, t, PcOf(s, t), c, PcOf(s, WORKER), k, k', serialised);
    StepKeepsFull(s.shared, t, PcOf(s, t), c, PcOf(s, WORKER), k, k', serialised);
  }

  // Only an enumeration by the worker answers a request, and only one of a
  // full pass answers a full request; when a pause breaks the pass off, they
  // are owed again.
  lemma AnsweredOnlyByPasses(h: Shared, t: ThreadId, pc: Pc, c: Choice, serialised: bool)
    ensures var n := StepOf(h, t, pc, c, serialised).shared.notes;
            && (h.notes.owed && !n.owed ==> t == WORKER && pc.PassEnumerate? && n.covered)
            && (h.notes.owedFull && !n.owedFull ==>
                  t == WORKER && pc.PassEnumerate? && h.flags.fullKind && n.coveredFull)
            && (h.notes.covered && !n.covered && !pc.PassEnumerate? ==> n.owed || (pc.PassNext? && pc.left == 0))
            && (h.notes.coveredFull && !n.coveredFull && !pc.PassEnumerate? ==>
                  n.owedFull || (pc.PassNext? && pc.left == 0))
  {
    if IsPass(pc) {
      AnsweredByPass(h, t, pc, c);
    } else {
      CallsAnswerNothing(h, t, pc, c, serialised);
      RequestsAnswerNothing(h, t, pc);
      LoopAnswersNothing(h, pc, c);
    }
    hide BeginStep, PassStep, PauseStep, ResumeStep, RequestStep, StopStep, WorkerStep;
  }

  lemma AnsweredByPass(h: Shared, t: ThreadId, pc: Pc, c: Choice)
    requires IsPass(pc)
    ensures var n := PassStep(h, t, pc, c).shared.notes;
            && (h.notes.owed && !n.owed ==> t == WORKER && pc.PassEnumerate? && n.covered)
            && (h.notes.owedFull && !n.owedFull ==>
                  t == WORKER && pc.PassEnumerate? && h.flags.fullKind && n.coveredFull)
            && (h.notes.covered && !n.covered && !pc.PassEnumerate? ==> n.owed || (pc.PassNext? && pc.left == 0))
            && (h.notes.coveredFull && !n.coveredFull && !pc.PassEnumerate? ==>
                  n.owedFull || (pc.PassNext? && pc.left == 0))
  {
  }

  predicate NoneAnswered(a: Notes, b: Notes) {
    (a.owed ==> b.owed) && (a.owedFull ==> b.owedFull) && a.covered == b.covered && a.coveredFull == b.coveredFull
  }

  lemma CallsAnswerNothing(h: Shared, t: ThreadId, pc: Pc, c: Choice, serialised: bool)
    ensures NoneAnswered(h.notes, BeginStep(h, t, c, serialised).shared.notes)
    ensures NoneAnswered(h.notes, PauseStep(h, t, pc).shared.notes)
    ensures NoneAnswered(h.notes, ResumeStep(h, t, pc).shared.notes)
  {
  }

  lemma RequestsAnswerNothing(h: Shared, t: ThreadId, pc: Pc)
    ensures NoneAnswered(h.notes, RequestStep(h, t, pc).shared.notes)
    ensures NoneAnswered(h.notes, StopStep(h, pc).shared.notes)
  {
  }

  lemma LoopAnswersNothing(h: Shared, pc: Pc, c: Choice)
    ensures NoneAnswered(h.notes, WorkerStep(h, pc, c).shared.notes)
  {
  }

  // The step enumerates the devices for the worker, in a full pass or any.
  predicate Enumerates(s: State, t: ThreadId, full: bool) {
    t == WORKER && PcOf(s, t).PassEnumerate? && (full ==> s.shared.flags.fullKind)
  }

  predicate Owes(s: State, full: bool) { if full then s.shared.notes.owedFull else s.shared.notes.owed }

  // In every schedule, from any state: a request that is owed at first and not
  // at the end was answered by an enumeration of the worker in between, and a
  // full request by one of a full pass. Triggered passes alone never do.
  lemma {:induction false} AnsweredInBetween(s: State, schedule: Schedule, serialised: bool, full: bool)
    requires Owes(s, full) && !Owes(Execute(s, schedule, serialised), full)
    ensures exists k :: 0 <= k < |schedule| && Enumerates(Execute(s, schedule[..k], serialised), schedule[k].0, full)
  {
    assert schedule != [];
    var n := |schedule| - 1;
    var before := Execute(s, schedule[..n], serialised);
    hide StepOf, Enumerates;
    if Owes(before, full) {
      AnsweredNow(before, schedule[n].0, schedule[n].1, serialised, full);
    } else {
      AnsweredInBetween(s, schedule[..n], serialised, full);
      var k :| 0 <= k < n && Enumerates(Execute(s, schedule[..n][..k], serialised), schedule[..n][k].0, full);
      assert schedule[..n][..k] == schedule[..k] && schedule[..n][k] == schedule[k];
    }
  }

  lemma AnsweredNow(s: State, t: ThreadId, c: Choice, serialised: bool, full: bool)
    requires Owes(s, full) && !Owes(Advance(s, t, c, serialised), full)
    ensures Enumerates(s, t, full)
  {
    hide StepOf;
    AnsweredOnlyByPasses(s.shared, t, PcOf(s, t), c, serialised);
  }

  // So a worker that waits while the engine runs, nobody pausing or resuming,
  // has been or is about to be woken for every request it owes, and will make
  // a full pass if it owes one.
  lemma WaitingMeansWoken(schedule: Schedule, serialised: bool)
    requires serialised || Separate(schedule, serialised)
    requires var s := Execute(INITIAL, schedule, serialised);
             && s.shared.mode.Running? && PcOf(s, WORKER).Waiting?
             && !SomePausing(s) && !SomeResumed(s) && !SomeRequesting(s)
    ensures var s := Execute(INITIAL, schedule, serialised);
            && (s.shared.notes.owed ==> s.shared.flags.rescanPending && (s.shared.worker.signal || SomeNotifying(s)))
            && (s.shared.notes.owedFull ==>
                  s.shared.flags.fullPending && (SomeSetting(s) || WakeUp(s.shared, AskersOf(s))))
            && !s.shared.notes.covered && !s.shared.notes.coveredFull
  {
    NoRequestIsLost(schedule, serialised);
    hide Execute, SomeNotifying, SomeSetting, SomePausing, SomeResumed, SomeRequesting, Separate;
  }

  // ----- Why pausing and resuming must not overlap -----

  // The engine runs, everything is idle, the worker waits without a wake-up:
  // the full scan that resume() asked for is forgotten.
  ghost predicate Forgotten(s: State) {
    && s.shared.mode.Running? && !s.shared.flags.pauseRequested && !s.shared.flags.rescanPending
    && !s.shared.flags.fullPending
    && !s.shared.worker.signal && PcOf(s, WORKER).Waiting? && (forall t: ThreadId :: t != WORKER ==> PcOf(s, t).Idle?)
    && s.shared.notes.owed && s.shared.notes.owedFull
  }

  // That is what NoRequestIsLost excludes.
  lemma ForgottenIsLost(s: State)
    requires Forgotten(s)
    ensures !NoRequestLost(s) && !NoFullRequestLost(s)
  {
    assert forall t: ThreadId :: PcOf(s, t).Idle? || PcOf(s, t).Waiting?;
  }

  ghost predicate Looks(s: State, h: Shared, worker: Pc, pauser: Pc, resumer: Pc) {
    && s.shared == h && PcOf(s, WORKER) == worker && PcOf(s, 1) == pauser && PcOf(s, 2) == resumer
    && forall t: ThreadId :: t > 2 ==> PcOf(s, t).Idle?
  }

  function Played(before: Schedule, t: ThreadId, choices: seq<Choice>): Schedule
  {
    if choices == [] then before else Played(before, t, choices[..|choices| - 1]) + [(t, choices[|choices| - 1])]
  }

  // A thread goes on alone, on the shared memory.
  function Alone(h: Shared, t: ThreadId, pc: Pc, choices: seq<Choice>): Next {
    if choices == [] then Next(h, pc)
    else
      var n := Alone(h, t, pc, choices[..|choices| - 1]);
      StepOf(n.shared, t, n.pc, choices[|choices| - 1], false)
  }

  lemma {:induction false} PlayedAlone(before: Schedule, t: ThreadId, choices: seq<Choice>)
    ensures var s, s' := Execute(INITIAL, before, false), Execute(INITIAL, Played(before, t, choices), false);
            var n := Alone(s.shared, t, PcOf(s, t), choices);
            && s'.shared == n.shared && PcOf(s', t) == n.pc
            && forall u: ThreadId :: u != t ==> PcOf(s', u) == PcOf(s, u)
  {
    if choices == [] {
    } else {
      var m := |choices| - 1;
      PlayedAlone(before, t, choices[..m]);
      var schedule := Played(before, t, choices[..m]);
      assert (schedule + [(t, choices[m])])[..|schedule|] == schedule;
      hide StepOf;
    }
  }

  lemma AloneMore(h: Shared, t: ThreadId, pc: Pc, choices: seq<Choice>, c: Choice)
    ensures Alone(h, t, pc, choices + [c]) == (var n := Alone(h, t, pc, choices); StepOf(n.shared, t, n.pc, c, false))
  {
    assert (choices + [c])[..|choices|] == choices;
    hide StepOf;
  }

  const CALM := Flags(false, false, false, true)
  const FREE := Locks(NOBODY, NOBODY, NOBODY)
  const AWAKE := Worker(false, false, false)
  const SETTLED := Notes(false, false, false, false, 0)
  const RAISED := Shared(Running, FREE, CALM.(pauseRequested := true), AWAKE, SETTLED)

  // One thread goes on alone, from a known state to a known state.
  lemma PlayOn(before: Schedule, t: ThreadId, choices: seq<Choice>, h: Shared, worker: Pc, pauser: Pc, resumer: Pc,
               n: Next)
    requires Looks(Execute(INITIAL, before, false), h, worker, pauser, resumer) && t <= 2
    requires Alone(h, t, if t == WORKER then worker else if t == 1 then pauser else resumer, choices) == n
    ensures Looks(Execute(INITIAL, Played(before, t, choices), false), n.shared,
                  if t == WORKER then n.pc
                  else worker, if t == 1 then n.pc else pauser, if t == 2 then n.pc else resumer)
  {
    hide Execute, Alone, Played;
    PlayedAlone(before, t, choices);
  }

  // resume() begins when pause() has taken effect but not lowered its flag:
  // the worker takes the request, finds the flag up, and goes back to wait.
  lemma OverlapLosesRequest()
    ensures exists schedule :: Forgotten(Execute(INITIAL, schedule, false))
  {
    assert Looks(Execute(INITIAL, [], false), INITIAL.shared, Top, Idle, Idle);
    PauserRaises();
    WorkerSkips(RAISED);
    PauserPauses();
    ResumerResumes();
    WorkerTakes();
    WorkerSkips(TAKEN);
    PauserLowers();
    hide Execute, Alone, Played, Looks, PAUSED, RAISED, TAKEN, RESUMED, CALM, INITIAL;
    var p1 := Played([], 1, [Begin(CallPause), Go]);
    PlayOn([], 1, [Begin(CallPause), Go], INITIAL.shared, Top, Idle, Idle, Next(RAISED, PauseLock));
    var p2 := Played(p1, WORKER, [Go, Go, Go]);
    PlayOn(p1, WORKER, [Go, Go, Go], RAISED, Top, PauseLock, Idle, Next(RAISED, Waiting));
    var p3 := Played(p2, 1, [Go, Go, Go]);
    PlayOn(p2, 1, [Go, Go, Go], RAISED, Waiting, PauseLock, Idle, Next(PAUSED, PauseLower));
    var p4 := Played(p3, 2, [Begin(CallResume), Go, Go, Go, Go, Go]);
    PlayOn(p3, 2, [Begin(CallResume), Go, Go, Go, Go, Go], PAUSED, Waiting, PauseLower, Idle, Next(RESUMED, Idle));
    var p5 := Played(p4, WORKER, [Go, Go, Go, TimeOut, Go, Go]);
    PlayOn(p4, WORKER, [Go, Go, Go, TimeOut, Go, Go], RESUMED, Waiting, PauseLower, Idle, Next(TAKEN, Top));
    var p6 := Played(p5, WORKER, [Go, Go, Go]);
    PlayOn(p5, WORKER, [Go, Go, Go], TAKEN, Top, PauseLower, Idle, Next(TAKEN, Waiting));
    var p7 := Played(p6, 1, [Go]);
    PlayOn(p6, 1, [Go], TAKEN, Waiting, PauseLower, Idle, Next(TAKEN.(flags := CALM), Idle));
    ForgottenNow(Execute(INITIAL, p7, false));
  }

  lemma ForgottenNow(s: State)
    requires Looks(s, TAKEN.(flags := CALM), Waiting, Idle, Idle)
    ensures Forgotten(s)
  {
  }

  const PAUSED := RAISED.(mode := Paused)
  const RESUMED := RAISED.(flags := Flags(true, true, true, true), worker := AWAKE.(signal := true),
                          notes := Notes(true, true, false, false, 0))
  const TAKEN := RESUMED.(flags := Flags(true, false, false, true), worker := AWAKE)

  lemma PauserRaises()
    ensures Alone(INITIAL.shared, 1, Idle, [Begin(CallPause), Go]) == Next(RAISED, PauseLock)
  {
    AloneMore(INITIAL.shared, 1, Idle, [], Begin(CallPause));
    AloneMore(INITIAL.shared, 1, Idle, [Begin(CallPause)], Go);
    assert [] + [Begin(CallPause)] == [Begin(CallPause)] && [Begin(CallPause)] + [Go] == [Begin(CallPause), Go];
  }

  lemma Three(h: Shared, t: ThreadId, pc: Pc, a: Choice, b: Choice, c: Choice)
    ensures Alone(h, t, pc, [a, b, c])
            == (var n1 := StepOf(h, t, pc, a, false);
                var n2 := StepOf(n1.shared, t, n1.pc, b, false);
                StepOf(n2.shared, t, n2.pc, c, false))
  {
    hide StepOf;
    AloneMore(h, t, pc, [], a);
    AloneMore(h, t, pc, [a], b);
    AloneMore(h, t, pc, [a, b], c);
    assert [] + [a] == [a] && [a] + [b] == [a, b] && [a, b] + [c] == [a, b, c];
  }

  lemma Six(h: Shared, t: ThreadId, pc: Pc, a: seq<Choice>, b: seq<Choice>)
    requires |a| == 3 && |b| == 3
    ensures var n := Alone(h, t, pc, a); Alone(h, t, pc, a + b) == Alone(n.shared, t, n.pc, b)
  {
    hide StepOf;
    var n := Alone(h, t, pc, a);
    Three(n.shared, t, n.pc, b[0], b[1], b[2]);
    AloneMore(h, t, pc, a, b[0]);
    AloneMore(h, t, pc, a + [b[0]], b[1]);
    AloneMore(h, t, pc, a + [b[0]] + [b[1]], b[2]);
    assert a + b == a + [b[0]] + [b[1]] + [b[2]] && b == [b[0], b[1], b[2]];
  }

  lemma WorkerSkips(h: Shared)
    requires h.mode.Running? && h.flags.pauseRequested && !h.worker.exit
    ensures Alone(h, WORKER, Top, [Go, Go, Go]) == Next(h, Waiting)
  {
    Three(h, WORKER, Top, Go, Go, Go);
    hide Alone;
  }

  lemma PauserPauses()
    ensures Alone(RAISED, 1, PauseLock, [Go, Go, Go]) == Next(PAUSED, PauseLower)
  {
    Three(RAISED, 1, PauseLock, Go, Go, Go);
    hide Alone;
  }

  lemma ResumerRuns()
    ensures Alone(PAUSED, 2, Idle, [Begin(CallResume), Go, Go]) == Next(RAISED, SetFull(true))
  {
    Three(PAUSED, 2, Idle, Begin(CallResume), Go, Go);
    hide Alone;
  }

  lemma ResumerAsks()
    ensures Alone(RAISED, 2, SetFull(true), [Go, Go, Go]) == Next(RESUMED, Idle)
  {
    Three(RAISED, 2, SetFull(true), Go, Go, Go);
    hide Alone;
  }

  lemma ResumerResumes()
    ensures Alone(PAUSED, 2, Idle, [Begin(CallResume), Go, Go, Go, Go, Go]) == Next(RESUMED, Idle)
  {
    ResumerRuns();
    ResumerAsks();
    hide Alone, StepOf, PAUSED, RAISED, RESUMED;
    Six(PAUSED, 2, Idle, [Begin(CallResume), Go, Go], [Go, Go, Go]);
    assert [Begin(CallResume), Go, Go] + [Go, Go, Go] == [Begin(CallResume), Go, Go, Go, Go, Go];
  }

  const EXCHANGED := RESUMED.(flags := Flags(true, false, true, true), worker := AWAKE)

  lemma WorkerWakes()
    ensures Alone(RESUMED, WORKER, Waiting, [Go, Go, Go]) == Next(EXCHANGED, Debounce(0))
  {
    Three(RESUMED, WORKER, Waiting, Go, Go, Go);
    hide Alone;
  }

  lemma WorkerChooses()
    ensures Alone(EXCHANGED, WORKER, Debounce(0), [TimeOut, Go, Go]) == Next(TAKEN, Top)
  {
    Three(EXCHANGED, WORKER, Debounce(0), TimeOut, Go, Go);
    hide Alone;
  }

  lemma WorkerTakes()
    ensures Alone(RESUMED, WORKER, Waiting, [Go, Go, Go, TimeOut, Go, Go]) == Next(TAKEN, Top)
  {
    WorkerWakes();
    WorkerChooses();
    hide Alone, StepOf, RESUMED, EXCHANGED, TAKEN;
    Six(RESUMED, WORKER, Waiting, [Go, Go, Go], [TimeOut, Go, Go]);
    assert [Go, Go, Go] + [TimeOut, Go, Go] == [Go, Go, Go, TimeOut, Go, Go];
  }

  lemma PauserLowers()
    ensures Alone(TAKEN, 1, PauseLower, [Go]) == Next(TAKEN.(flags := CALM), Idle)
  {
    AloneMore(TAKEN, 1, PauseLower, [], Go);
    assert [] + [Go] == [Go];
  }

  // A scan request can be forgotten exactly when pauses and resumes are not
  // done under one lock; and in each run in which one is, a resume took effect
  // before a pause that had taken effect lowered its flag.
  lemma ForgottenIff(serialised: bool)
    ensures (exists schedule :: Forgotten(Execute(INITIAL, schedule, serialised))) <==> !serialised
    ensures forall schedule :: Forgotten(Execute(INITIAL, schedule, serialised)) ==> !Separate(schedule, serialised)
  {
    hide Execute, Forgotten, Separate, NoRequestLost, NoFullRequestLost;
    if !serialised {
      OverlapLosesRequest();
    }
    forall schedule | Forgotten(Execute(INITIAL, schedule, serialised))
      ensures !serialised && !Separate(schedule, serialised)
    {
      ForgottenIsLost(Execute(INITIAL, schedule, serialised));
      if serialised || Separate(schedule, serialised) {
        NoRequestIsLost(schedule, serialised);
      }
    }
  }
}
