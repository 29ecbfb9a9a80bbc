/** One plugin peer session of the Agent as a machine of critical sections: every step is what one
    goroutine does while it holds the session mutex, or one blocking call it makes between two such
    sections (lock, open, write, cancel, abort). Goroutines are program counters in the state. */
module PeerLifecycle {
  import opened Prelude

  // ----- processes -----

  datatype Home = Inherited | OfEpoch(index: nat) | OfRetry
  datatype Fate = Live | Aborted | Cancelled

  /** A plugin process, in the order of opening. It dies once, by Cancel or otherwise; `Cancelled` says
      that its Cancel returned true. `late` says that its Open is still being written after its Abort. */
  datatype Proc = Proc(home: Home, fate: Fate, accepted: bool, late: bool)

  // ----- goroutines -----

  /** startEpoch. `owns` tells whether it still owns its plugin operation and its read lock. */
  datatype Starter =
    | Unstarted | Acquire | Blocking | Locked | Opening
    | Opened(p: nat) | Writing(p: nat) | Wrote(p: nat)
    | Discard(p: nat, told: bool, fails: bool)
    | Discarding(p: nat, told: bool, fails: bool, gracefully: bool)
    | Crediting(fails: bool)
    | Failing(owns: bool) | AwaitingClose(owns: bool) | Leaving(owns: bool) | Gone

  /** The goroutine that waits for an Open write that outlived its timeout. */
  datatype Waiter = NoWaiter | Waiting | Heard | Returning | Returned

  /** The part of beginNextRound that retires an epoch. */
  datatype Retire = NotRetired | Claimed | Deciding | Aborting | Done | Replaced | Yielded

  /** stopPluginPeerEpoch as the closer runs it for one epoch. */
  datatype Stop = Untouched | Queued | CancelReturned(ok: bool) | Flagged | Stopped

  datatype Closer = NotClosing | Closing | Detached

  datatype Cleanup =
    | NoCleanup | Awaiting | WantsRetry | Retrying | Judging | Weighing(receipt: bool)
    | Unlocking(receipt: bool, recovery: bool) | Recording(receipt: bool, recovery: bool) | Dropping | Dropped | Finished

  datatype RetryPc =
    | Idle | Entered | Guarded | RetryOpened(p: nat) | RetryAborting(p: nat, pending: bool) | RetryWritten(p: nat)
    | RetryCancelled(ok: bool)

  datatype Recovery = Off | Wanting | InRetry | Result(ok: bool)

  // ----- the session -----

  datatype Life = NotReady | Ready | InRound | Interrupted

  /** Whether the Open of the plugin was seen to be accepted, and whether the epoch was then kept. */
  datatype Opening = Unapplied | Applied | Committed

  /** A place that may hold a read lock on the plugin id. */
  datatype Hold = Free | Held

  /** `local` is the read lock the epoch took for itself; `cancelled` the answer of the closer's Cancel. */
  datatype Epoch = Epoch(
    generation: nat, plugin: Option<nat>, life: Life, open: Opening, local: Hold, cancelled: Option<bool>,
    starter: Starter, waiter: Waiter, retire: Retire, stop: Stop)

  /** cancelRequired and cancelApplied. */
  datatype Debt = Debt(required: bool, applied: bool)

  /** The fields of the session object, with the read locks it holds on its plugin id. `claim` is set
      once by the first terminal path, which says whether plugins are to be cancelled or aborted. */
  datatype Session = Session(
    status: Status, guard: Hold, claim: Option<bool>, debt: Debt, epoch: Option<nat>, retiring: Option<nat>,
    nextGeneration: nat, roundNo: nat, ops: int, locks: int)

  datatype Status = Status(closed: bool, terminal: bool)

  /** The body of closeOnce and the cleanup goroutine it starts. */
  datatype Shutdown = Shutdown(closer: Closer, closerGuard: Hold, cleanup: Cleanup, cleanupGuard: Hold, doneClosed: nat)

  /** The retry of a Cancel, which cleanup and recovery share. */
  datatype Redo = Redo(pc: RetryPc, lock: Hold, recovery: Recovery, publishing: nat)

  /** What the Agent knows about the session. */
  datatype Desk = Desk(receipt: bool, recorded: bool, listed: bool, transferred: bool)

  datatype State = State(epochs: seq<Epoch>, procs: seq<Proc>, me: Session, shut: Shutdown, redo: Redo, desk: Desk)

  datatype Outcome = Good | Bad | Slow

  datatype Action =
    | StartEpoch
    | StarterMoves(i: nat, out: Outcome)
    | WaiterMoves(i: nat, ok: bool)
    | PluginReady | RoundReserved | Interrupt
    | BeginNextRound
    | RetireMoves(i: nat)
    | ProcessDies
    | SetTerminal | MarkClosed | Claim(sendCancel: bool)
    | Detach | StopMoves(i: nat, ok: bool) | FinishClose
    | CleanupMoves
    | RetryMoves(out: Outcome) | LateWrite(p: nat, ok: bool)
    | StartRecovery | RecoveryMoves | Publish
    | Forget | Transfer

  const PLACEHOLDER := Epoch(0, None, NotReady, Unapplied, Free, None, Unstarted, NoWaiter, NotRetired, Untouched)

  const OWED := Proc(Inherited, Aborted, true, false)

  /** A new session object; the obligation of an earlier object of the same session may come with it. */
  function NewSession(inherits: bool): State {
    State([PLACEHOLDER], if inherits then [OWED] else [],
          Session(Status(false, false), Free, None, Debt(inherits, false), Some(0), None, 0, 1, 0, 0),
          Shutdown(NotClosing, Free, NoCleanup, Free, 0), Redo(Idle, Free, Off, 0), Desk(false, false, true, false))
  }

  predicate Current(m: Session, i: nat) {
    !m.status.closed && m.epoch == Some(i)
  }

  predicate Graceful(m: Session) {
    m.claim == Some(true)
  }

  predicate Owing(m: Session) {
    m.debt.required && !m.debt.applied
  }

  /** What a critical section of one epoch's goroutine does: to the epoch, the session, the processes. */
  datatype Effect = Effect(e: Epoch, me: Session, procs: seq<Proc>)

  function Do(s: State, i: nat, f: Effect): State {
    if i < |s.epochs| then State(s.epochs[i := f.e], f.procs, f.me, s.shut, s.redo, s.desk) else s
  }

  // ----- small effects -----

  function Killed(ps: seq<Proc>, p: nat, cancelled: bool): seq<Proc> {
    if p < |ps| && ps[p].fate.Live? then ps[p := ps[p].(fate := if cancelled then Cancelled else Aborted)] else ps
  }

  /** The answer of Cancel: its own, or the one an earlier Cancel got. */
  predicate CancelSaid(ps: seq<Proc>, p: nat, ok: bool) {
    p < |ps| && (if ps[p].fate.Live? then ok else ps[p].fate.Cancelled?)
  }

  function Accepted(ps: seq<Proc>, p: nat): seq<Proc> {
    if p < |ps| then ps[p := ps[p].(accepted := true)] else ps
  }

  function Launched(ps: seq<Proc>, home: Home): seq<Proc> {
    ps + [Proc(home, Live, false, false)]
  }

  function ClaimedBy(m: Session, sendCancel: bool): Session {
    m.(status := m.status.(closed := true), claim := if m.claim.Some? then m.claim else Some(sendCancel))
  }

  function WithDebt(m: Session, required: bool, applied: bool): Session {
    m.(debt := Debt(required, applied))
  }

  /** The flags of notePluginPeerOpenAppliedLocked. */
  function Noted(m: Session, e: Epoch): Session {
    WithDebt(m, m.debt.required || e.cancelled.Some? || (m.status.closed && !m.status.terminal), m.debt.applied || e.cancelled == Some(true))
  }

  /** The flags stopPluginPeerEpoch sets before it aborts. */
  function FlaggedForAbort(m: Session, e: Epoch): Session {
    if e.plugin.Some? && !m.status.terminal && (!e.open.Unapplied? || !e.life.NotReady?) then WithDebt(m, true, false) else m
  }

  function Unlock(m: Session, hold: Hold): Session {
    m.(locks := if hold.Held? then m.locks - 1 else m.locks)
  }

  function WithOps(m: Session, ops: int): Session {
    m.(ops := ops)
  }

  // ----- startEpoch -----

  function Started(s: State): State {
    var m := s.me;
    if m.status.closed || m.epoch.None? || m.epoch.value >= |s.epochs| || !s.epochs[m.epoch.value].starter.Unstarted?
       || (m.epoch.value > 0 && !s.epochs[m.epoch.value - 1].retire.Replaced?)
    then s
    else
      s.(me := m.(nextGeneration := m.nextGeneration + 1, epoch := Some(|s.epochs|)),
         epochs := s.epochs + [PLACEHOLDER.(generation := m.nextGeneration + 1, starter := Acquire)])
  }

  /** acquirePluginStartGuard */
  function StarterLocks(m: Session, ps: seq<Proc>, i: nat, e: Epoch): Effect {
    match e.starter
    case Acquire =>
      if !Current(m, i) then Effect(e.(starter := Gone), m, ps)
      else if m.guard.Held? then Effect(e.(starter := Opening), WithOps(m, m.ops + 1), ps)
      else Effect(e.(starter := Blocking), m, ps)
    case Blocking => Effect(e.(starter := Locked, local := Held), m.(locks := m.locks + 1), ps)
    case _ =>
      if !Current(m, i) then Effect(e.(starter := Gone, local := Free), Unlock(m, e.local), ps)
      else Effect(e.(starter := Opening), WithOps(m, m.ops + 1), ps)
  }

  /** openPluginPeer and the declaration checks. */
  function StarterOpens(m: Session, ps: seq<Proc>, i: nat, e: Epoch, out: Outcome): Effect {
    match e.starter
    case Opened(p) =>
      if out.Bad? then Effect(e.(starter := Discard(p, false, true)), m, ps)
      else if !Current(m, i) then Effect(e.(starter := Discard(p, false, false)), m, ps)
      else if out.Slow? then Effect(e.(starter := Discard(p, false, true)), m, ps)
      else Effect(e.(plugin := Some(p), starter := Writing(p)), m, ps)
    case _ =>
      if !out.Good? then Effect(e.(starter := Failing(true)), m, ps)
      else Effect(e.(starter := Opened(|ps|)), m, Launched(ps, OfEpoch(i)))
  }

  /** The bounded write of Open, and the section that commits the epoch. */
  function StarterWrites(m: Session, ps: seq<Proc>, i: nat, e: Epoch, out: Outcome): Effect {
    match e.starter
    case Writing(p) =>
      (match out
       case Good => Effect(e.(starter := Wrote(p)), m, Accepted(ps, p))
       case Bad => Effect(e.(starter := Failing(true)), m, ps)
       case Slow => Effect(e.(starter := Failing(false), waiter := Waiting), m, ps))
    case Wrote(p) =>
      if !Current(m, i) then Effect(e.(open := Applied, starter := Discard(p, true, false)), Noted(m, e), ps)
      else
        Effect(e.(open := Committed, starter := Leaving(true), local := if m.guard.Held? then e.local else Free),
               Noted(m, e).(guard := Held), ps)
    case _ => Effect(e, m, ps)
  }

  /** stopUncommittedPlugin */
  function StarterDiscards(m: Session, ps: seq<Proc>, e: Epoch, out: Outcome): Effect {
    match e.starter
    case Discard(p, told, fails) =>
      Effect(e.(starter := Discarding(p, told, fails, Graceful(m))),
             WithDebt(m, m.debt.required || (told && !m.status.terminal), m.debt.applied), ps)
    case Discarding(p, told, fails, gracefully) =>
      Effect(e.(starter := if gracefully && told && CancelSaid(ps, p, out.Good?) then Crediting(fails)
                           else if fails then Failing(true) else Leaving(true)),
             m, Killed(ps, p, gracefully && out.Good?))
    case Crediting(fails) =>
      Effect(e.(starter := if fails then Failing(true) else Leaving(true)), WithDebt(m, m.debt.required, true), ps)
    case _ => Effect(e, m, ps)
  }

  /** failEpoch and the deferred releases. */
  function StarterLeaves(m: Session, ps: seq<Proc>, i: nat, e: Epoch, detached: bool): Effect {
    match e.starter
    case Failing(owns) =>
      if !Current(m, i) then Effect(e.(starter := Leaving(owns)), m, ps)
      else Effect(e.(starter := AwaitingClose(owns)), ClaimedBy(m, false), ps)
    case AwaitingClose(owns) => Effect(e.(starter := if detached then Leaving(owns) else e.starter), m, ps)
    case Leaving(owns) =>
      if owns then Effect(e.(starter := Gone, local := Free), WithOps(Unlock(m, e.local), m.ops - 1), ps)
      else Effect(e.(starter := Gone), m, ps)
    case _ => Effect(e, m, ps)
  }

  function StarterStep(m: Session, ps: seq<Proc>, i: nat, e: Epoch, out: Outcome, detached: bool): Effect {
    if e.starter.Acquire? || e.starter.Blocking? || e.starter.Locked? then StarterLocks(m, ps, i, e)
    else if e.starter.Opening? || e.starter.Opened? then StarterOpens(m, ps, i, e, out)
    else if e.starter.Writing? || e.starter.Wrote? then StarterWrites(m, ps, i, e, out)
    else if e.starter.Discard? || e.starter.Discarding? || e.starter.Crediting? then StarterDiscards(m, ps, e, out)
    else StarterLeaves(m, ps, i, e, detached)
  }

  function WaiterStep(m: Session, ps: seq<Proc>, e: Epoch, ok: bool): Effect {
    match e.waiter
    case Waiting =>
      if ok && e.plugin.Some? then Effect(e.(waiter := Heard), m, Accepted(ps, e.plugin.value))
      else Effect(e.(waiter := Returning), m, ps)
    case Heard => Effect(e.(open := Applied, waiter := Returning), Noted(m, e), ps)
    case Returning => Effect(e.(waiter := Returned, local := Free), WithOps(Unlock(m, e.local), m.ops - 1), ps)
    case _ => Effect(e, m, ps)
  }

  // ----- rounds -----

  predicate HasCurrent(s: State) {
    !s.me.status.closed && s.me.epoch.Some? && s.me.epoch.value < |s.epochs|
  }

  /** The plugin reports ready, a round is reserved, and interruptRound: the process is kept alive. */
  function RoundStep(e: Epoch, a: Action): Epoch {
    match a
    case PluginReady => if e.open.Committed? && e.life.NotReady? then e.(life := Ready) else e
    case RoundReserved => if e.life.Ready? then e.(life := InRound) else e
    case Interrupt => if e.life.InRound? then e.(life := Interrupted) else e
    case _ => e
  }

  function RoundAction(s: State, a: Action): State {
    if HasCurrent(s) then Do(s, s.me.epoch.value, Effect(RoundStep(s.epochs[s.me.epoch.value], a), s.me, s.procs)) else s
  }

  /** beginNextRound, first section. */
  function NextRound(s: State): State {
    if !HasCurrent(s) || !s.epochs[s.me.epoch.value].life.Interrupted? || s.me.roundNo >= 4 then s
    else
      var prior := s.me.epoch.value;
      s.(epochs := s.epochs[prior := s.epochs[prior].(retire := Claimed)] + [PLACEHOLDER],
         me := s.me.(epoch := Some(|s.epochs|), retiring := Some(prior), ops := s.me.ops + 1, roundNo := s.me.roundNo + 1))
  }

  function RetireStep(m: Session, ps: seq<Proc>, i: nat, e: Epoch): Effect {
    match e.retire
    case Claimed =>
      if m.status.closed || m.retiring != Some(i) then Effect(e.(retire := Yielded), WithOps(m, m.ops - 1), ps)
      else
        Effect(e.(retire := Deciding),
               WithDebt(m, m.debt.required || e.plugin.Some?, m.debt.applied && e.plugin.None?).(retiring := None), ps)
    case Deciding => Effect(e.(retire := Aborting), FlaggedForAbort(m, e), ps)
    case Aborting => Effect(e.(retire := Done), m, if e.plugin.Some? then Killed(ps, e.plugin.value, false) else ps)
    case Done => Effect(e.(retire := Replaced), WithOps(m, m.ops - 1), ps)
    case _ => Effect(e, m, ps)
  }

  // ----- closing -----

  function Enqueue(es: seq<Epoch>, which: Option<nat>): seq<Epoch> {
    if which.Some? && which.value < |es| then es[which.value := es[which.value].(stop := Queued)] else es
  }

  /** closeOnce, first section: everything the session owns is taken from it. */
  function DetachStep(s: State): State {
    if s.me.claim.None? || !s.shut.closer.NotClosing? then s
    else
      s.(epochs := Enqueue(Enqueue(s.epochs, s.me.epoch), s.me.retiring),
         me := s.me.(epoch := None, retiring := None, guard := Free),
         shut := s.shut.(closer := Closing, closerGuard := s.me.guard))
  }

  function StopStep(m: Session, ps: seq<Proc>, e: Epoch, ok: bool): Effect {
    match e.stop
    case Queued =>
      if e.plugin.None? then Effect(e.(stop := Stopped), m, ps)
      else if Graceful(m) then
        Effect(e.(stop := CancelReturned(CancelSaid(ps, e.plugin.value, ok))), m, Killed(ps, e.plugin.value, ok))
      else Effect(e.(stop := Flagged), FlaggedForAbort(m, e), ps)
    case CancelReturned(said) =>
      Effect(e.(cancelled := Some(said), stop := Stopped),
             WithDebt(m, m.debt.required || !e.open.Unapplied?, m.debt.applied || (!e.open.Unapplied? && said)), ps)
    case Flagged => Effect(e.(stop := Stopped), m, if e.plugin.Some? then Killed(ps, e.plugin.value, false) else ps)
    case _ => Effect(e, m, ps)
  }

  predicate Stopping(e: Epoch) {
    e.stop.Queued? || e.stop.CancelReturned? || e.stop.Flagged?
  }

  predicate NoneStopping(es: seq<Epoch>) {
    forall i :: 0 <= i < |es| ==> !Stopping(es[i])
  }

  function FinishStep(s: State): State {
    if !s.shut.closer.Closing? || !NoneStopping(s.epochs) then s
    else s.(shut := s.shut.(closer := Detached, cleanup := Awaiting, cleanupGuard := s.shut.closerGuard, closerGuard := Free))
  }

  function CleanupStep(s: State): State {
    var shut := s.shut;
    match shut.cleanup
    case Awaiting =>
      if s.me.ops != 0 then s else s.(shut := shut.(cleanup := if Graceful(s.me) then WantsRetry else Judging))
    case WantsRetry =>
      if !s.redo.pc.Idle? then s
      else if Owing(s.me) then
        s.(redo := s.redo.(pc := Entered, lock := shut.cleanupGuard), shut := shut.(cleanupGuard := Free, cleanup := Retrying))
      else s.(shut := shut.(cleanup := Judging, cleanupGuard := Free), me := Unlock(s.me, shut.cleanupGuard))
    case Judging => s.(shut := shut.(cleanup := Weighing(Graceful(s.me) && !Owing(s.me))))
    case Weighing(receipt) => s.(shut := shut.(cleanup := Unlocking(receipt, !s.me.status.terminal && Owing(s.me))))
    case Unlocking(receipt, recovery) =>
      s.(shut := shut.(cleanup := Recording(receipt, recovery), cleanupGuard := Free), me := Unlock(s.me, shut.cleanupGuard))
    case Recording(receipt, recovery) =>
      s.(shut := shut.(cleanup := Dropping),
         desk := if receipt then s.desk.(receipt := true, recorded := false)
                 else if recovery then s.desk.(recorded := true) else s.desk)
    case Dropping => s.(shut := shut.(cleanup := Dropped), desk := s.desk.(listed := false))
    case Dropped => s.(shut := shut.(cleanup := Finished, doneClosed := shut.doneClosed + 1))
    case _ => s
  }

  // ----- retries -----

  /** The retry lets go of its lock, if it has one, and reports to whoever asked for it. */
  function EndRetry(s: State, lock: Hold, result: bool): State {
    s.(me := Unlock(s.me, lock),
       redo := s.redo.(pc := Idle, lock := Free, recovery := if s.shut.cleanup.Retrying? then s.redo.recovery else Result(result)),
       shut := s.shut.(cleanup := if s.shut.cleanup.Retrying? then Judging else s.shut.cleanup))
  }

  function RetryStep(s: State, out: Outcome): State {
    var redo := s.redo;
    match redo.pc
    case Idle => s
    case Entered =>
      s.(redo := redo.(pc := Guarded, lock := Held), me := s.me.(locks := if redo.lock.Held? then s.me.locks else s.me.locks + 1))
    case Guarded =>
      if !out.Good? then EndRetry(s, redo.lock, false)
      else s.(procs := Launched(s.procs, OfRetry), redo := redo.(pc := RetryOpened(|s.procs|)))
    case RetryOpened(p) =>
      (match out
       case Good => s.(procs := Accepted(s.procs, p), redo := redo.(pc := RetryWritten(p)))
       case Bad => s.(redo := redo.(pc := RetryAborting(p, false)))
       case Slow => s.(redo := redo.(pc := RetryAborting(p, true))))
    case RetryAborting(p, pending) =>
      var ps := Killed(s.procs, p, false);
      if pending && p < |ps| then EndRetry(s.(procs := ps[p := ps[p].(late := true)]), Free, false)
      else EndRetry(s.(procs := ps), redo.lock, false)
    case RetryWritten(p) =>
      s.(procs := Killed(s.procs, p, out.Good?), redo := redo.(pc := RetryCancelled(CancelSaid(s.procs, p, out.Good?))))
    case RetryCancelled(ok) => EndRetry(s.(me := WithDebt(s.me, s.me.debt.required, s.me.debt.applied || ok)), redo.lock, ok)
  }

  /** The Open write of an aborted retry ends, and its waiter lets the read lock go. */
  function LateStep(s: State, p: nat, ok: bool): State {
    if p >= |s.procs| || !s.procs[p].late then s
    else s.(procs := s.procs[p := s.procs[p].(late := false, accepted := s.procs[p].accepted || ok)], me := Unlock(s.me, Held))
  }

  predicate RecoveryWanted(s: State) {
    s.redo.recovery.Off? && !s.me.debt.applied
    && ((s.shut.cleanup.Finished? && !Graceful(s.me)) || ((s.shut.cleanup.Dropped? || s.shut.cleanup.Finished?) && s.desk.recorded))
  }

  function RecoveryStep(s: State): State {
    var redo := s.redo;
    match redo.recovery
    case Wanting =>
      if !redo.pc.Idle? then s
      else if Owing(s.me) then s.(redo := redo.(pc := Entered, lock := Free, recovery := InRetry))
      else s.(redo := redo.(recovery := Result(true)))
    case Result(ok) => s.(redo := redo.(recovery := Off, publishing := if ok then redo.publishing + 1 else redo.publishing))
    case _ => s
  }

  function PublishStep(s: State): State {
    if s.redo.publishing == 0 then s
    else s.(redo := s.redo.(publishing := s.redo.publishing - 1), desk := s.desk.(receipt := true, recorded := false))
  }

  /** A replayed prepare takes the obligation over, if nobody is working on it. */
  predicate CanTransfer(s: State) {
    !s.desk.listed && s.desk.recorded && s.redo.pc.Idle? && s.redo.recovery.Off?
  }

  function TransferStep(s: State): State {
    if !CanTransfer(s) then s
    else s.(me := WithDebt(s.me, false, true), desk := s.desk.(recorded := false, transferred := true))
  }

  function Step(s: State, a: Action): State {
    match a
    case StartEpoch => Started(s)
    case StarterMoves(i, out) =>
      if i < |s.epochs| then Do(s, i, StarterStep(s.me, s.procs, i, s.epochs[i], out, s.shut.closer.Detached?)) else s
    case WaiterMoves(i, ok) => if i < |s.epochs| then Do(s, i, WaiterStep(s.me, s.procs, s.epochs[i], ok)) else s
    case RetireMoves(i) => if i < |s.epochs| then Do(s, i, RetireStep(s.me, s.procs, i, s.epochs[i])) else s
    case StopMoves(i, ok) => if i < |s.epochs| then Do(s, i, StopStep(s.me, s.procs, s.epochs[i], ok)) else s
    case PluginReady => RoundAction(s, a)
    case RoundReserved => RoundAction(s, a)
    case Interrupt => RoundAction(s, a)
    case BeginNextRound => NextRound(s)
    case ProcessDies => if |s.procs| > 0 then s.(procs := Killed(s.procs, |s.procs| - 1, false)) else s
    case SetTerminal => s.(me := s.me.(status := s.me.status.(terminal := true)))
    case MarkClosed => s.(me := s.me.(status := s.me.status.(closed := true)))
    case Claim(sendCancel) => s.(me := ClaimedBy(s.me, sendCancel))
    case Detach => DetachStep(s)
    case FinishClose => FinishStep(s)
    case CleanupMoves => CleanupStep(s)
    case RetryMoves(out) => RetryStep(s, out)
    case LateWrite(p, ok) => LateStep(s, p, ok)
    case StartRecovery => if RecoveryWanted(s) then s.(redo := s.redo.(recovery := Wanting)) else s
    case RecoveryMoves => RecoveryStep(s)
    case Publish => PublishStep(s)
    case Forget => s.(desk := s.desk.(recorded := false))
    case Transfer => TransferStep(s)
  }

  datatype Trace = Born(inherits: bool) | After(before: Trace, action: Action)

  function Reach(t: Trace): State {
    match t
    case Born(inherits) => NewSession(inherits)
    case After(before, action) => Step(Reach(before), action)
  }
}
