// The engine's threads, locks and flags as interleaved small steps
// (src/core/WatchdogEngine.cpp: pause, resume, stop, run, requestRescan,
// requestFullScan and the locking of scanOnce).
//
// A step is one access to shared memory by one thread. A schedule is any
// sequence of such steps, by any number of threads.

module EngineThreads {
  type ThreadId = nat

  // The engine's own thread; every other thread is a caller.
  const WORKER: ThreadId := 0

  const NOBODY: int := -1
  const DEBOUNCE_ROUNDS: nat := 10

  datatype EngineMode = Running | Paused | Stopping | Stopped

  // Where a thread is. A pass is scanOnce, run by the worker or by a caller.
  datatype Pc =
    | Idle
    | PassState | PassFlag                                   // canModify before the pass
    | PassLock                                               // scanLock_
    | PassEnumerate
    | PassNext(left: nat)                                    // modifyLock_ for the next endpoint
    | PassCheckState(left: nat) | PassCheckFlag(left: nat)   // canModify under the lock
    | PassWriting(left: nat)
    | PauseControl | PauseRaise | PauseLock | PauseCas | PauseUnlock | PauseLower
    | ResumeControl | ResumeCas | ResumeClear
    | SetFull(resuming: bool) | SetPending(resuming: bool) | Notify(resuming: bool)
    | StopState | StopExit | StopNotify | StopJoin
    // run
    | Top | TopState | TopFlag | Waiting | Woken(signalled: bool) | Exchange
    | Debounce(round: nat) | DebounceWoken(round: nat) | Settle | TakeKind | Periodic | Dead

  // Each lock's owner, or NOBODY. `control` is the service's own lock.
  datatype Locks = Locks(modifying: int, scanning: int, control: int)

  // The atomic flags, and the kind of the worker's next pass.
  datatype Flags = Flags(pauseRequested: bool, rescanPending: bool, fullPending: bool, fullKind: bool)

  // The worker thread: its event, the request to exit, whether it ended.
  datatype Worker = Worker(signal: bool, exit: bool, done: bool)

  // What an observer notes; nothing depends on it. `owed`, `owedFull`: a (full)
  // rescan was requested, and the worker did not enumerate the devices since.
  // `covered`, `coveredFull`: the worker's current pass did. `finished`:
  // endpoints finished since the pause flag was last raised.
  datatype Notes = Notes(owed: bool, owedFull: bool, covered: bool, coveredFull: bool, finished: nat)

  datatype Shared = Shared(mode: EngineMode, locks: Locks, flags: Flags, worker: Worker, notes: Notes)

  datatype State = State(shared: Shared, pcs: map<ThreadId, Pc>)

  const INITIAL := State(Shared(Running, Locks(NOBODY, NOBODY, NOBODY),
                                Flags(false, false, false, true), Worker(false, false, false),
                                Notes(false, false, false, false, 0)), map[WORKER := Top])

  function PcOf(s: State, t: ThreadId): Pc { if t in s.pcs then s.pcs[t] else Idle }

  datatype Call = CallPause | CallResume | CallRescan | CallFullScan | CallScan | CallStop

  // What a thread does next where it has a choice. `Go` continues.
  datatype Choice = Go | Begin(call: Call) | TimeOut | Found(count: nat)

  // A thread and the shared memory after a step.
  datatype Next = Next(shared: Shared, pc: Pc)

  // ----- Calls -----

  function BeginStep(h: Shared, t: ThreadId, c: Choice, serialised: bool): Next {
    if !c.Begin? || t == WORKER then Next(h, Idle)
    else
      match c.call
      case CallPause => Next(h, if serialised then PauseControl else PauseRaise)
      case CallResume => Next(h, if serialised then ResumeControl else ResumeCas)
      case CallRescan => Next(h, SetPending(false))
      case CallFullScan => Next(h, SetFull(false))
      case CallScan => Next(h, PassState)
      case CallStop => Next(h, StopState)
  }

  // The control lock after thread t leaves it.
  function Left(lock: int, t: ThreadId): int { if lock == t then NOBODY else lock }

  predicate IsPause(pc: Pc) {
    pc.PauseControl? || pc.PauseRaise? || pc.PauseLock? || pc.PauseCas? || pc.PauseUnlock? || pc.PauseLower?
  }

  function PauseStep(h: Shared, t: ThreadId, pc: Pc): Next {
    match pc
    case PauseControl =>
      if h.locks.control == NOBODY then Next(h.(locks := h.locks.(control := t)), PauseRaise) else Next(h, pc)
    case PauseRaise => Next(h.(flags := h.flags.(pauseRequested := true), notes := h.notes.(finished := 0)), PauseLock)
    case PauseLock =>
      if h.locks.modifying == NOBODY then Next(h.(locks := h.locks.(modifying := t)), PauseCas) else Next(h, pc)
    case PauseCas => Next(h.(mode := if h.mode.Running? then Paused else h.mode), PauseUnlock)
    case PauseUnlock => Next(h.(locks := h.locks.(modifying := NOBODY)), PauseLower)
    case PauseLower =>
      Next(h.(flags := h.flags.(pauseRequested := false), locks := h.locks.(control := Left(h.locks.control, t))), Idle)
    case _ => Next(h, pc)
  }

  predicate IsResume(pc: Pc) { pc.ResumeControl? || pc.ResumeCas? || pc.ResumeClear? }

  function ResumeStep(h: Shared, t: ThreadId, pc: Pc): Next {
    match pc
    case ResumeControl =>
      if h.locks.control == NOBODY then Next(h.(locks := h.locks.(control := t)), ResumeCas) else Next(h, pc)
    case ResumeCas =>
      if h.mode.Paused? then Next(h.(mode := Running), ResumeClear)
      else Next(h.(locks := h.locks.(control := Left(h.locks.control, t))), Idle)
    case ResumeClear => Next(h, SetFull(true))
    case _ => Next(h, pc)
  }

  predicate IsRequest(pc: Pc) { pc.SetFull? || pc.SetPending? || pc.Notify? }

  function RequestStep(h: Shared, t: ThreadId, pc: Pc): Next {
    match pc
    case SetFull(r) =>
      Next(h.(flags := h.flags.(fullPending := true), notes := h.notes.(owedFull := true)), SetPending(r))
    case SetPending(r) => Next(h.(flags := h.flags.(rescanPending := true), notes := h.notes.(owed := true)), Notify(r))
    case Notify(r) =>
      Next(h.(worker := h.worker.(signal := true),
              locks := if r then h.locks.(control := Left(h.locks.control, t)) else h.locks), Idle)
    case _ => Next(h, pc)
  }

  predicate IsStop(pc: Pc) { pc.StopState? || pc.StopExit? || pc.StopNotify? || pc.StopJoin? }

  function StopStep(h: Shared, pc: Pc): Next {
    match pc
    case StopState => Next(h.(mode := Stopping), StopExit)
    case StopExit => Next(h.(worker := h.worker.(exit := true)), StopNotify)
    case StopNotify => Next(h.(worker := h.worker.(signal := true)), StopJoin)
    case StopJoin => if h.worker.done then Next(h.(mode := Stopped), Idle) else Next(h, pc)
    case _ => Next(h, pc)
  }

  // ----- A pass -----

  predicate IsPass(pc: Pc) {
    || pc.PassState? || pc.PassFlag? || pc.PassLock? || pc.PassEnumerate?
    || pc.PassNext? || pc.PassCheckState? || pc.PassCheckFlag? || pc.PassWriting?
  }

  // The worker goes on to wait; a caller returns.
  function AfterPass(t: ThreadId): Pc { if t == WORKER then Waiting else Idle }

  // The pass is stopped by a pause: what it was to cover is owed again.
  function Abort(h: Shared, mine: bool): Shared {
    h.(locks := h.locks.(modifying := NOBODY, scanning := NOBODY),
       notes := h.notes.(owed := h.notes.owed || (mine && h.notes.covered),
                         owedFull := h.notes.owedFull || (mine && h.notes.coveredFull),
                         covered := h.notes.covered && !mine, coveredFull := h.notes.coveredFull && !mine))
  }

  function Enumerated(h: Shared, mine: bool): Shared {
    var full := h.flags.fullKind;
    h.(notes := h.notes.(owed := h.notes.owed && !mine, owedFull := h.notes.owedFull && !(mine && full),
                         covered := if mine then h.notes.owed else h.notes.covered,
                         coveredFull := if mine then h.notes.owedFull && full else h.notes.coveredFull))
  }

  function Finished(h: Shared, mine: bool): Shared {
    h.(locks := h.locks.(scanning := NOBODY),
       notes := h.notes.(covered := h.notes.covered && !mine, coveredFull := h.notes.coveredFull && !mine))
  }

  function PassStep(h: Shared, t: ThreadId, pc: Pc, c: Choice): Next {
    match pc
    case PassState => Next(h, if h.mode.Running? then PassFlag else AfterPass(t))
    case PassFlag => Next(h, if !h.flags.pauseRequested then PassLock else AfterPass(t))
    case PassLock =>
      if h.locks.scanning == NOBODY then Next(h.(locks := h.locks.(scanning := t)), PassEnumerate) else Next(h, pc)
    case PassEnumerate => Next(Enumerated(h, t == WORKER), PassNext(if c.Found? then c.count else 0))
    case PassNext(left) =>
      if left == 0 then Next(Finished(h, t == WORKER), AfterPass(t))
      else if h.locks.modifying == NOBODY then Next(h.(locks := h.locks.(modifying := t)), PassCheckState(left))
      else Next(h, pc)
    case PassCheckState(left) =>
      if h.mode.Running? then Next(h, PassCheckFlag(left)) else Next(Abort(h, t == WORKER), AfterPass(t))
    case PassCheckFlag(left) =>
      if !h.flags.pauseRequested then Next(h, PassWriting(left)) else Next(Abort(h, t == WORKER), AfterPass(t))
    case PassWriting(left) =>
      Next(h.(locks := h.locks.(modifying := NOBODY), notes := h.notes.(finished := h.notes.finished + 1)),
           PassNext(if left > 0 then left - 1 else 0))
    case _ => Next(h, pc)
  }

  // ----- The worker's loop -----

  predicate IsLoop(pc: Pc) {
    || pc.Top? || pc.TopState? || pc.TopFlag? || pc.Waiting? || pc.Woken? || pc.Exchange?
    || pc.Debounce? || pc.DebounceWoken? || pc.Settle? || pc.TakeKind? || pc.Periodic? || pc.Dead?
  }

  function WorkerStep(h: Shared, pc: Pc, c: Choice): Next {
    match pc
    case Top => if h.worker.exit then Next(h.(worker := h.worker.(done := true)), Dead) else Next(h, TopState)
    case TopState => Next(h, if h.mode.Running? then TopFlag else Waiting)
    case TopFlag => Next(h, if !h.flags.pauseRequested then PassState else Waiting)
    case Waiting =>
      if c.TimeOut? then Next(h, Woken(false))
      else if h.worker.signal then Next(h.(worker := h.worker.(signal := false)), Woken(true))
      else Next(h, pc)
    case Woken(signalled) =>
      if h.worker.exit then Next(h.(worker := h.worker.(done := true)), Dead)
      else Next(h, if signalled then Exchange else Periodic)
    case Exchange =>
      Next(h.(flags := h.flags.(rescanPending := false)), if h.flags.rescanPending then Debounce(0) else Periodic)
    case Debounce(round) =>
      if round >= DEBOUNCE_ROUNDS || c.TimeOut? then Next(h, Settle)
      else if h.worker.signal then Next(h.(worker := h.worker.(signal := false)), DebounceWoken(round))
      else Next(h, pc)
    case DebounceWoken(round) =>
      if h.worker.exit then Next(h.(worker := h.worker.(done := true)), Dead) else Next(h, Debounce(round + 1))
    case Settle => Next(h.(flags := h.flags.(rescanPending := false)), TakeKind)
    case TakeKind => Next(h.(flags := h.flags.(fullKind := h.flags.fullPending, fullPending := false)), Top)
    case Periodic => Next(h.(flags := h.flags.(fullKind := true, fullPending := false)), Top)
    case _ => Next(h, pc)
  }

  // One step of one thread. With `serialised`, pausing and resuming happen
  // under one lock, as the service does it.
  function StepOf(h: Shared, t: ThreadId, pc: Pc, c: Choice, serialised: bool): Next {
    if pc.Idle? then BeginStep(h, t, c, serialised)
    else if IsPass(pc) then PassStep(h, t, pc, c)
    else if IsPause(pc) then PauseStep(h, t, pc)
    else if IsResume(pc) then ResumeStep(h, t, pc)
    else if IsRequest(pc) then RequestStep(h, t, pc)
    else if IsStop(pc) then StopStep(h, pc)
    else WorkerStep(h, pc, c)
  }

  function Advance(s: State, t: ThreadId, c: Choice, serialised: bool): State {
    var n := StepOf(s.shared, t, PcOf(s, t), c, serialised);
    State(n.shared, s.pcs[t := n.pc])
  }

  type Schedule = seq<(ThreadId, Choice)>

  function Execute(s: State, schedule: Schedule, serialised: bool): State {
    if schedule == [] then s
    else
      var n := |schedule| - 1;
      Advance(Execute(s, schedule[..n], serialised), schedule[n].0, schedule[n].1, serialised)
  }

  // ----- Locks -----

  predicate HoldsModify(pc: Pc) {
    pc.PauseCas? || pc.PauseUnlock? || pc.PassCheckState? || pc.PassCheckFlag? || pc.PassWriting?
  }

  predicate HoldsScan(pc: Pc) {
    pc.PassEnumerate? || pc.PassNext? || pc.PassCheckState? || pc.PassCheckFlag? || pc.PassWriting?
  }

  predicate HoldsControl(pc: Pc) {
    || (IsPause(pc) && !pc.PauseControl?)
    || (IsResume(pc) && !pc.ResumeControl?)
    || (IsRequest(pc) && pc.resuming)
  }

  // The endpoint's check under the lock has read "running".
  predicate PastCheck(pc: Pc) { pc.PassCheckFlag? || pc.PassWriting? }

  predicate Ending(h: Shared) { h.mode.Stopping? || h.mode.Stopped? }

  // A lock is kept, taken while free, or released by its owner.
  predicate LockChange(before: int, after: int, t: ThreadId, held: bool, holds: bool) {
    || (after == before && holds == held)
    || (before == NOBODY && after == t && !held && holds)
    || (held && after == NOBODY && !holds)
  }

  predicate LockMoves(h: Shared, t: ThreadId, pc: Pc, n: Next) {
    && LockChange(h.locks.modifying, n.shared.locks.modifying, t, HoldsModify(pc), HoldsModify(n.pc))
    && LockChange(h.locks.scanning, n.shared.locks.scanning, t, HoldsScan(pc), HoldsScan(n.pc))
    && (PastCheck(n.pc) ==> n.shared.mode == h.mode && (PastCheck(pc) || h.mode.Running?))
    && (n.shared.mode.Paused? ==> h.mode.Paused? || pc.PauseCas?)
  }

  lemma BeginMoves(h: Shared, t: ThreadId, c: Choice, serialised: bool)
    ensures LockMoves(h, t, Idle, BeginStep(h, t, c, serialised))
  {
  }

  lemma PassMoves(h: Shared, t: ThreadId, pc: Pc, c: Choice)
    requires IsPass(pc)
    ensures LockMoves(h, t, pc, PassStep(h, t, pc, c))
  {
  }

  lemma PauseMoves(h: Shared, t: ThreadId, pc: Pc)
    requires IsPause(pc)
    ensures LockMoves(h, t, pc, PauseStep(h, t, pc))
  {
  }

  lemma ResumeMoves(h: Shared, t: ThreadId, pc: Pc)
    requires IsResume(pc)
    ensures LockMoves(h, t, pc, ResumeStep(h, t, pc))
  {
  }

  lemma RequestMoves(h: Shared, t: ThreadId, pc: Pc)
    requires IsRequest(pc)
    ensures LockMoves(h, t, pc, RequestStep(h, t, pc))
  {
  }

  lemma StopMoves(h: Shared, t: ThreadId, pc: Pc)
    requires IsStop(pc)
    ensures LockMoves(h, t, pc, StopStep(h, pc))
  {
  }

  lemma LoopMoves(h: Shared, t: ThreadId, pc: Pc, c: Choice)
    requires IsLoop(pc)
    ensures LockMoves(h, t, pc, WorkerStep(h, pc, c))
  {
  }

  lemma StepMoves(h: Shared, t: ThreadId, pc: Pc, c: Choice, serialised: bool)
    ensures LockMoves(h, t, pc, StepOf(h, t, pc, c, serialised))
  {
    hide LockMoves, BeginStep, PassStep, PauseStep, ResumeStep, RequestStep, StopStep, WorkerStep;
    if pc.Idle? {
      BeginMoves(h, t, c, serialised);
    } else if IsPass(pc) {
      PassMoves(h, t, pc, c);
    } else if IsPause(pc) {
      PauseMoves(h, t, pc);
    } else if IsResume(pc) {
      ResumeMoves(h, t, pc);
    } else if IsRequest(pc) {
      RequestMoves(h, t, pc);
    } else if IsStop(pc) {
      StopMoves(h, t, pc);
    } else {
      LoopMoves(h, t, pc, c);
    }
  }

  // The locks are held by the threads that are where one holds them; an
  // endpoint past its check excludes "paused".
  predicate LocksOf(h: Shared, t: ThreadId, pc: Pc) {
    && (HoldsModify(pc) <==> h.locks.modifying == t)
    && (HoldsScan(pc) <==> h.locks.scanning == t)
    && (PastCheck(pc) ==> !h.mode.Paused?)
  }

  ghost predicate LocksHeld(s: State) { forall t: ThreadId :: LocksOf(s.shared, t, PcOf(s, t)) }

  lemma OthersLocks(h: Shared, t: ThreadId, pc: Pc, n: Next, u: ThreadId, other: Pc)
    requires LockMoves(h, t, pc, n) && LocksOf(h, t, pc) && LocksOf(h, u, other) && u != t
    ensures LocksOf(n.shared, u, other)
  {
  }

  lemma LocksStep(s: State, t: ThreadId, c: Choice, serialised: bool)
    requires LocksHeld(s)
    ensures LocksHeld(Advance(s, t, c, serialised))
  {
    var n := StepOf(s.shared, t, PcOf(s, t), c, serialised);
    var s' := Advance(s, t, c, serialised);
    StepMoves(s.shared, t, PcOf(s, t), c, serialised);
    hide StepOf;
    forall u: ThreadId
      ensures LocksOf(s'.shared, u, PcOf(s', u))
    {
      assert LocksOf(s.shared, u, PcOf(s, u)) && LocksOf(s.shared, t, PcOf(s, t));
      if u != t {
        OthersLocks(s.shared, t, PcOf(s, t), n, u, PcOf(s, u));
      }
    }
  }

  lemma {:induction false} LocksAlways(schedule: Schedule, serialised: bool)
    ensures LocksHeld(Execute(INITIAL, schedule, serialised))
  {
    hide Advance;
    if schedule == [] {
    } else {
      var n := |schedule| - 1;
      LocksAlways(schedule[..n], serialised);
      LocksStep(Execute(INITIAL, schedule[..n], serialised), schedule[n].0, schedule[n].1, serialised);
    }
  }

  // ----- Pausing is safe -----

  // In every interleaving of scans, pauses, resumes and stops: while the
  // engine is paused no scan is past its check, so none writes a device; at
  // any time at most one thread changes devices and at most one pass is on.
  lemma PauseIsSafe(schedule: Schedule, serialised: bool, t: ThreadId, u: ThreadId)
    ensures var s := Execute(INITIAL, schedule, serialised);
            && (s.shared.mode.Paused? ==> !PastCheck(PcOf(s, t)))
            && (PcOf(s, t).PassWriting? && HoldsModify(PcOf(s, u)) ==> t == u)
            && (HoldsScan(PcOf(s, t)) && HoldsScan(PcOf(s, u)) ==> t == u)
  {
    LocksAlways(schedule, serialised);
    var s := Execute(INITIAL, schedule, serialised);
    assert LocksOf(s.shared, t, PcOf(s, t)) && LocksOf(s.shared, u, PcOf(s, u));
    hide Execute;
  }

  // Only resume and stop end a pause, and only resume makes the engine run.
  lemma PauseLasts(h: Shared, t: ThreadId, pc: Pc, c: Choice, serialised: bool)
    ensures var m := StepOf(h, t, pc, c, serialised).shared.mode;
            && (h.mode.Paused? && !m.Paused? ==>
                  (pc.ResumeCas? && m.Running?) || (IsStop(pc) && (m.Stopping? || m.Stopped?)))
            && (!h.mode.Running? && m.Running? ==> pc.ResumeCas? && h.mode.Paused?)
  {
    var n := StepOf(h, t, pc, c, serialised);
    if IsPass(pc) || pc.Idle? || IsRequest(pc) || !(IsPause(pc) || IsResume(pc) || IsStop(pc)) {
      QuietMode(h, t, pc, c, serialised);
    }
    hide BeginStep, PassStep, RequestStep, WorkerStep;
  }

  lemma QuietMode(h: Shared, t: ThreadId, pc: Pc, c: Choice, serialised: bool)
    ensures BeginStep(h, t, c, serialised).shared.mode == h.mode && PassStep(h, t, pc, c).shared.mode == h.mode
    ensures RequestStep(h, t, pc).shared.mode == h.mode && WorkerStep(h, pc, c).shared.mode == h.mode
  {
  }

  // The engine does not run and no scan is past its check.
  ghost predicate Quiet(s: State) { !s.shared.mode.Running? && forall t: ThreadId :: !PastCheck(PcOf(s, t)) }

  // The step is a resume that takes effect.
  predicate Resumes(s: State, t: ThreadId) { PcOf(s, t).ResumeCas? && s.shared.mode.Paused? }

  lemma QuietStep(s: State, t: ThreadId, c: Choice, serialised: bool)
    requires Quiet(s) && !Resumes(s, t)
    ensures Quiet(Advance(s, t, c, serialised))
  {
    hide StepOf;
    StepMoves(s.shared, t, PcOf(s, t), c, serialised);
    PauseLasts(s.shared, t, PcOf(s, t), c, serialised);
    assert !PastCheck(PcOf(s, t));
    var s' := Advance(s, t, c, serialised);
    forall u: ThreadId
      ensures !PastCheck(PcOf(s', u))
    {
      assert u != t ==> PcOf(s', u) == PcOf(s, u);
    }
  }

  predicate NoResume(s: State, schedule: Schedule, serialised: bool) {
    forall k :: 0 <= k < |schedule| ==> !Resumes(Execute(s, schedule[..k], serialised), schedule[k].0)
  }

  // From a state in which nothing is written, nothing is written until a
  // resume takes effect, whatever is scanned, paused or stopped meanwhile.
  lemma {:induction false} QuietUntilResume(s: State, schedule: Schedule, serialised: bool)
    requires Quiet(s) && NoResume(s, schedule, serialised)
    ensures Quiet(Execute(s, schedule, serialised))
  {
    hide Advance, Quiet, NoResume, Resumes;
    if schedule == [] {
      assert Execute(s, schedule, serialised) == s;
    } else {
      var n := |schedule| - 1;
      NoResumeFront(s, schedule, serialised);
      QuietUntilResume(s, schedule[..n], serialised);
      QuietStep(Execute(s, schedule[..n], serialised), schedule[n].0, schedule[n].1, serialised);
    }
  }

  lemma NoResumeFront(s: State, schedule: Schedule, serialised: bool)
    requires schedule != [] && NoResume(s, schedule, serialised)
    ensures var n := |schedule| - 1;
            && NoResume(s, schedule[..n], serialised)
            && !Resumes(Execute(s, schedule[..n], serialised), schedule[n].0)
  {
    hide Execute, Resumes;
    var n := |schedule| - 1;
    assert forall k :: 0 <= k < n ==> schedule[..n][..k] == schedule[..k] && schedule[..n][k] == schedule[k];
  }

  // Between a pause taking effect and the next resume no scan writes a device:
  // in every schedule that begins in any reachable paused state and in which no
  // resume takes effect, no thread is ever past its check, stop or no stop.
  lemma NothingWrittenWhilePaused(before: Schedule, after: Schedule, serialised: bool, t: ThreadId)
    requires Execute(INITIAL, before, serialised).shared.mode.Paused?
    requires NoResume(Execute(INITIAL, before, serialised), after, serialised)
    ensures !PastCheck(PcOf(Execute(Execute(INITIAL, before, serialised), after, serialised), t))
  {
    var s := Execute(INITIAL, before, serialised);
    forall u: ThreadId
      ensures !PastCheck(PcOf(s, u))
    {
      PauseIsSafe(before, serialised, u, u);
    }
    hide Execute, NoResume;
    QuietUntilResume(s, after, serialised);
  }

  // ----- Pausing is prompt -----

  // pause() has raised the flag and not lowered it yet.
  predicate Raised(pc: Pc) { pc.PauseLock? || pc.PauseCas? || pc.PauseUnlock? || pc.PauseLower? }

  predicate PauseTail(pc: Pc) { pc.PauseUnlock? || pc.PauseLower? }

  // Where the owner of the control lock is.
  function OwnerPc(s: State): Pc { if s.shared.locks.control >= 0 then PcOf(s, s.shared.locks.control) else Idle }

  function OwnerAfter(h: Shared, t: ThreadId, pc: Pc, owner: Pc, n: Next): Pc {
    if n.shared.locks.control == t then n.pc else if n.shared.locks.control < 0 then Idle else owner
  }

  predicate ControlOf(h: Shared, t: ThreadId, pc: Pc) { HoldsControl(pc) <==> h.locks.control == t }

  // The flag is up exactly while the owner of the control lock has it raised,
  // and once its pause took effect the engine does not run.
  predicate FlagOf(h: Shared, owner: Pc) {
    && (h.flags.pauseRequested <==> Raised(owner))
    && (PauseTail(owner) ==> !h.mode.Running?)
  }

  ghost predicate Controlled(s: State) {
    && s.shared.locks.control >= NOBODY && FlagOf(s.shared, OwnerPc(s))
    && forall t: ThreadId :: ControlOf(s.shared, t, PcOf(s, t))
  }

  predicate ControlMoves(h: Shared, t: ThreadId, pc: Pc, owner: Pc, n: Next) {
    && LockChange(h.locks.control, n.shared.locks.control, t, HoldsControl(pc), HoldsControl(n.pc))
    && FlagOf(n.shared, OwnerAfter(h, t, pc, owner, n))
  }

  lemma PauseControls(h: Shared, t: ThreadId, pc: Pc, owner: Pc)
    requires ControlOf(h, t, pc) && FlagOf(h, owner) && h.locks.control >= NOBODY && IsPause(pc)
    requires (h.locks.control == t ==> owner == pc) && (h.locks.control == NOBODY ==> owner == Idle)
    ensures ControlMoves(h, t, pc, owner, PauseStep(h, t, pc))
  {
  }

  lemma ResumeControls(h: Shared, t: ThreadId, pc: Pc, owner: Pc)
    requires ControlOf(h, t, pc) && FlagOf(h, owner) && h.locks.control >= NOBODY && IsResume(pc)
    requires (h.locks.control == t ==> owner == pc) && (h.locks.control == NOBODY ==> owner == Idle)
    ensures ControlMoves(h, t, pc, owner, ResumeStep(h, t, pc))
  {
  }

  lemma RequestControls(h: Shared, t: ThreadId, pc: Pc, owner: Pc)
    requires ControlOf(h, t, pc) && FlagOf(h, owner) && h.locks.control >= NOBODY && IsRequest(pc)
    requires (h.locks.control == t ==> owner == pc) && (h.locks.control == NOBODY ==> owner == Idle)
    ensures ControlMoves(h, t, pc, owner, RequestStep(h, t, pc))
  {
  }

  // Any other step leaves control, flag and "not running" alone.
  predicate ControlKept(h: Shared, pc: Pc, n: Next) {
    && n.shared.locks.control == h.locks.control && n.shared.flags.pauseRequested == h.flags.pauseRequested
    && (n.shared.mode.Running? ==> h.mode.Running?) && !HoldsControl(pc) && !HoldsControl(n.pc)
  }

  lemma PassKeepsControl(h: Shared, t: ThreadId, pc: Pc, c: Choice)
    requires IsPass(pc)
    ensures ControlKept(h, pc, PassStep(h, t, pc, c))
  {
  }

  lemma LoopKeepsControl(h: Shared, pc: Pc, c: Choice)
    requires IsLoop(pc)
    ensures ControlKept(h, pc, WorkerStep(h, pc, c))
  {
  }

  lemma OtherKeepsControl(h: Shared, t: ThreadId, pc: Pc, c: Choice)
    ensures ControlKept(h, Idle, BeginStep(h, t, c, true))
    ensures IsStop(pc) ==> ControlKept(h, pc, StepOf(h, t, pc, c, true))
  {
    hide PassStep, PauseStep, ResumeStep, RequestStep, WorkerStep;
  }

  lemma KeptControls(h: Shared, t: ThreadId, pc: Pc, owner: Pc, n: Next)
    requires ControlKept(h, pc, n) && ControlOf(h, t, pc) && FlagOf(h, owner)
    requires h.locks.control < 0 ==> owner == Idle
    ensures ControlMoves(h, t, pc, owner, n)
  {
  }

  lemma ControlStepMoves(h: Shared, t: ThreadId, pc: Pc, owner: Pc, c: Choice)
    requires ControlOf(h, t, pc) && FlagOf(h, owner) && h.locks.control >= NOBODY
    requires (h.locks.control == t ==> owner == pc) && (h.locks.control == NOBODY ==> owner == Idle)
    ensures ControlMoves(h, t, pc, owner, StepOf(h, t, pc, c, true))
  {
    hide BeginStep, PassStep, PauseStep, ResumeStep, RequestStep, StopStep, WorkerStep, ControlMoves, ControlOf;
    hide FlagOf, ControlKept;
    if IsPause(pc) {
      PauseControls(h, t, pc, owner);
    } else if IsResume(pc) {
      ResumeControls(h, t, pc, owner);
    } else if IsRequest(pc) {
      RequestControls(h, t, pc, owner);
    } else {
      if IsPass(pc) {
        PassKeepsControl(h, t, pc, c);
      } else if IsLoop(pc) {
        LoopKeepsControl(h, pc, c);
      } else {
        OtherKeepsControl(h, t, pc, c);
      }
      KeptControls(h, t, pc, owner, StepOf(h, t, pc, c, true));
    }
  }

  lemma ControlStep(s: State, t: ThreadId, c: Choice)
    requires Controlled(s)
    ensures Controlled(Advance(s, t, c, true))
  {
    var h, pc := s.shared, PcOf(s, t);
    var n := StepOf(h, t, pc, c, true);
    var s' := Advance(s, t, c, true);
    assert ControlOf(h, t, pc);
    ControlStepMoves(h, t, pc, OwnerPc(s), c);
    hide StepOf, FlagOf, HoldsControl;
    forall u: ThreadId
      ensures ControlOf(s'.shared, u, PcOf(s', u))
    {
      assert ControlOf(h, u, PcOf(s, u));
    }
    assert OwnerPc(s') == OwnerAfter(h, t, pc, OwnerPc(s), n);
  }

  lemma {:induction false} ControlAlways(schedule: Schedule)
    ensures Controlled(Execute(INITIAL, schedule, true))
  {
    hide Advance;
    if schedule == [] {
    } else {
      var n := |schedule| - 1;
      ControlAlways(schedule[..n]);
      ControlStep(Execute(INITIAL, schedule[..n], true), schedule[n].0, schedule[n].1);
    }
  }

  // The endpoint being changed, if any.
  function InFlight(s: State): nat {
    if s.shared.locks.modifying >= 0 && PcOf(s, s.shared.locks.modifying).PassWriting? then 1 else 0
  }

  ghost predicate Prompt(s: State) { s.shared.flags.pauseRequested ==> s.shared.notes.finished + InFlight(s) <= 1 }

  // A step begins an endpoint only when the flag is down, and ends one only
  // when it was being changed.
  predicate PromptMoves(h: Shared, pc: Pc, n: Next) {
    && (n.pc.PassWriting? ==> pc.PassWriting? || !h.flags.pauseRequested)
    && (pc.PassWriting? ==> n.shared.notes.finished == h.notes.finished + 1 && !n.pc.PassWriting?)
    && (!pc.PassWriting? ==> n.shared.notes.finished == h.notes.finished || n.shared.notes.finished == 0)
    && (n.shared.flags.pauseRequested && !h.flags.pauseRequested ==> n.shared.notes.finished == 0 && !n.pc.PassWriting?)
  }

  lemma PassIsPrompt(h: Shared, t: ThreadId, pc: Pc, c: Choice)
    requires IsPass(pc)
    ensures PromptMoves(h, pc, PassStep(h, t, pc, c))
  {
  }

  lemma CallIsPrompt(h: Shared, t: ThreadId, pc: Pc, c: Choice, serialised: bool)
    ensures PromptMoves(h, Idle, BeginStep(h, t, c, serialised))
    ensures IsPause(pc) ==> PromptMoves(h, pc, PauseStep(h, t, pc))
    ensures IsResume(pc) ==> PromptMoves(h, pc, ResumeStep(h, t, pc))
  {
  }

  lemma LoopIsPrompt(h: Shared, t: ThreadId, pc: Pc, c: Choice)
    ensures IsRequest(pc) ==> PromptMoves(h, pc, RequestStep(h, t, pc))
    ensures IsStop(pc) ==> PromptMoves(h, pc, StopStep(h, pc))
    ensures IsLoop(pc) ==> PromptMoves(h, pc, WorkerStep(h, pc, c))
  {
  }

  lemma StepIsPrompt(h: Shared, t: ThreadId, pc: Pc, c: Choice, serialised: bool)
    ensures PromptMoves(h, pc, StepOf(h, t, pc, c, serialised))
  {
    hide BeginStep, PassStep, PauseStep, ResumeStep, RequestStep, StopStep, WorkerStep, PromptMoves;
    CallIsPrompt(h, t, pc, c, serialised);
    LoopIsPrompt(h, t, pc, c);
    if IsPass(pc) {
      PassIsPrompt(h, t, pc, c);
    }
  }

  lemma PromptStep(s: State, t: ThreadId, c: Choice, serialised: bool)
    requires LocksHeld(s) && Prompt(s)
    ensures Prompt(Advance(s, t, c, serialised))
  {
    var h, pc := s.shared, PcOf(s, t);
    var n := StepOf(h, t, pc, c, serialised);
    var s' := Advance(s, t, c, serialised);
    StepIsPrompt(h, t, pc, c, serialised);
    StepMoves(h, t, pc, c, serialised);
    LocksStep(s, t, c, serialised);
    assert LocksOf(h, t, pc) && LocksOf(s'.shared, t, n.pc);
    hide StepOf, LocksHeld;
    var m := s'.shared.locks.modifying;
    if m >= 0 && m != t {
      assert PcOf(s', m) == PcOf(s, m) && h.locks.modifying == m;
    }
  }

  lemma {:induction false} PromptAlways(schedule: Schedule, serialised: bool)
    ensures Prompt(Execute(INITIAL, schedule, serialised))
  {
    hide Advance;
    if schedule == [] {
    } else {
      var n := |schedule| - 1;
      PromptAlways(schedule[..n], serialised);
      LocksAlways(schedule[..n], serialised);
      PromptStep(Execute(INITIAL, schedule[..n], serialised), schedule[n].0, schedule[n].1, serialised);
    }
  }

  // With pauses one at a time: from the moment pause() has raised its flag
  // until it returns, the flag is up, no endpoint begins to be changed, and at
  // most the one already in flight is finished.
  lemma PauseIsPrompt(schedule: Schedule, pauser: ThreadId, t: ThreadId, c: Choice)
    requires Raised(PcOf(Execute(INITIAL, schedule, true), pauser))
    ensures var s := Execute(INITIAL, schedule, true);
            && s.shared.flags.pauseRequested && s.shared.notes.finished + InFlight(s) <= 1
            && (PcOf(Advance(s, t, c, true), t).PassWriting? ==> PcOf(s, t).PassWriting?)
  {
    var s := Execute(INITIAL, schedule, true);
    ControlAlways(schedule);
    PromptAlways(schedule, true);
    StepIsPrompt(s.shared, t, PcOf(s, t), c, true);
    assert ControlOf(s.shared, pauser, PcOf(s, pauser));
    hide Execute, StepOf;
  }
}