/** Which processes are ever cancelled, and when: no flag that says so is taken back afterwards. */
module PeerLifecycleCancels {
  import opened PeerLifecycle
  import opened PeerLifecycleLocks
  import opened PeerLifecyclePlaces
  import opened PeerLifecycleDebt
  import opened PeerLifecycleGuard

  predicate CancelFree(ps: seq<Proc>) {
    forall p :: 0 <= p < |ps| ==> !ps[p].fate.Cancelled?
  }

  predicate SomeAccepted(ps: seq<Proc>) {
    exists p :: 0 <= p < |ps| && ps[p].accepted
  }

  // ----- a goroutine of one epoch -----

  /** The processes of other epochs stay as they are. */
  predicate OthersStay(i: nat, ps: seq<Proc>, qs: seq<Proc>) {
    && |ps| <= |qs|
    && (forall p :: 0 <= p < |ps| && ps[p].home != OfEpoch(i) ==> qs[p] == ps[p])
    && (forall p :: 0 <= p < |ps| ==> qs[p].home == ps[p].home)
    && (forall p :: |ps| <= p < |qs| ==> qs[p].home == OfEpoch(i))
  }

  /** A process is born alive, and no Open of an epoch's process is late. */
  predicate Births(ps: seq<Proc>, qs: seq<Proc>) {
    && (forall p :: |ps| <= p < |qs| ==> qs[p].fate.Live?)
    && (forall p :: 0 <= p < |qs| && qs[p].late ==> p < |ps| && ps[p].late)
  }

  /** The goroutines of an epoch mind their own processes, and a required Cancel stays required. */
  predicate StaysApart(m: Session, i: nat, ps: seq<Proc>, f: Effect) {
    (m.debt.required ==> f.me.debt.required) && OthersStay(i, ps, f.procs) && Births(ps, f.procs)
  }

  /** A Cancel is required only when a plugin took Open. Only a graceful close cancels, and never while an epoch is being retired. */
  predicate CancelsWell(m: Session, ps: seq<Proc>, e: Epoch, f: Effect) {
    && (f.me.debt.required ==> m.debt.required || SomeAccepted(f.procs))
    && (!CancelFree(f.procs) ==> !CancelFree(ps) || (Graceful(m) && !f.e.retire.Deciding?))
    && (f.e.retire.Deciding? ==> e.retire.Deciding? || !m.status.closed)
  }

  lemma LocksApart(m: Session, i: nat, e: Epoch, ps: seq<Proc>, out: Outcome)
    requires PlugOk(e, i, ps)
    ensures e.starter.Acquire? || e.starter.Blocking? || e.starter.Locked? ==> StaysApart(m, i, ps, StarterLocks(m, ps, i, e))
    ensures e.starter.Opening? || e.starter.Opened? ==> StaysApart(m, i, ps, StarterOpens(m, ps, i, e, out))
  {
  }

  lemma WritesApart(m: Session, i: nat, e: Epoch, ps: seq<Proc>, out: Outcome)
    requires PlugOk(e, i, ps)
    ensures e.starter.Writing? || e.starter.Wrote? ==> StaysApart(m, i, ps, StarterWrites(m, ps, i, e, out))
    ensures e.starter.Discard? || e.starter.Discarding? || e.starter.Crediting? ==> StaysApart(m, i, ps, StarterDiscards(m, ps, e, out))
  {
  }

  lemma StarterApart(m: Session, c: Closer, i: nat, e: Epoch, ps: seq<Proc>, out: Outcome)
    requires PlugOk(e, i, ps)
    ensures StaysApart(m, i, ps, StarterStep(m, ps, i, e, out, c.Detached?))
  {
    LocksApart(m, i, e, ps, out);
    WritesApart(m, i, e, ps, out);
  }

  lemma WaiterApart(m: Session, i: nat, e: Epoch, ps: seq<Proc>, ok: bool)
    requires PlugOk(e, i, ps)
    ensures StaysApart(m, i, ps, WaiterStep(m, ps, e, ok))
  {
  }

  lemma RetireApart(m: Session, i: nat, e: Epoch, ps: seq<Proc>)
    requires PlugOk(e, i, ps)
    ensures StaysApart(m, i, ps, RetireStep(m, ps, i, e))
  {
  }

  lemma StopApart(m: Session, i: nat, e: Epoch, ps: seq<Proc>, ok: bool)
    requires PlugOk(e, i, ps)
    ensures StaysApart(m, i, ps, StopStep(m, ps, e, ok))
  {
  }

  lemma KilledFree(ps: seq<Proc>, p: nat, cancelled: bool)
    ensures !CancelFree(Killed(ps, p, cancelled)) ==> !CancelFree(ps) || cancelled
  {
  }

  lemma WritesCancel(m: Session, i: nat, e: Epoch, ps: seq<Proc>, out: Outcome)
    requires PlugOk(e, i, ps) && (e.starter.Writing? || e.starter.Wrote?)
    ensures CancelsWell(m, ps, e, StarterWrites(m, ps, i, e, out))
  {
  }

  lemma DiscardsCancel(m: Session, c: Closer, len: nat, free: bool, i: nat, e: Epoch, ps: seq<Proc>, out: Outcome)
    requires EpochOk(m, c, len, free, i, e, ps) && (e.starter.Discard? || e.starter.Discarding? || e.starter.Crediting?)
    ensures CancelsWell(m, ps, e, StarterDiscards(m, ps, e, out))
  {
    if e.starter.Discarding? { KilledFree(ps, e.starter.p, e.starter.gracefully && out.Good?); }
  }

  lemma StarterCancels(m: Session, c: Closer, len: nat, free: bool, i: nat, e: Epoch, ps: seq<Proc>, out: Outcome)
    requires EpochOk(m, c, len, free, i, e, ps)
    ensures CancelsWell(m, ps, e, StarterStep(m, ps, i, e, out, c.Detached?))
  {
    if e.starter.Writing? || e.starter.Wrote? {
      WritesCancel(m, i, e, ps, out);
    } else if e.starter.Discard? || e.starter.Discarding? || e.starter.Crediting? {
      DiscardsCancel(m, c, len, free, i, e, ps, out);
    }
  }

  lemma WaiterCancels(m: Session, i: nat, e: Epoch, ps: seq<Proc>, ok: bool)
    requires PlugOk(e, i, ps)
    ensures CancelsWell(m, ps, e, WaiterStep(m, ps, e, ok))
  {
  }

  lemma RetireCancels(m: Session, i: nat, e: Epoch, ps: seq<Proc>)
    requires PlugOk(e, i, ps)
    ensures CancelsWell(m, ps, e, RetireStep(m, ps, i, e))
  {
    if e.retire.Aborting? && e.plugin.Some? { KilledFree(ps, e.plugin.value, false); }
  }

  lemma StopCancels(m: Session, c: Closer, len: nat, free: bool, i: nat, e: Epoch, ps: seq<Proc>, ok: bool)
    requires EpochOk(m, c, len, free, i, e, ps)
    ensures CancelsWell(m, ps, e, StopStep(m, ps, e, ok))
  {
    if e.plugin.Some? { KilledFree(ps, e.plugin.value, e.stop.Queued?); }
  }

  // ----- the invariant -----

  /** While flags may still be taken back, nothing was cancelled. */
  predicate Timely(s: State) {
    && (!PastWait(s.shut.cleanup) && !CancelFree(s.procs) ==> Graceful(s.me))
    && (forall i :: 0 <= i < |s.epochs| && s.epochs[i].retire.Deciding? ==> CancelFree(s.procs))
  }

  /** Apart from the epochs only a retry cancels, and it notes that it did. */
  predicate RetryNotes(s: State) {
    && (forall p :: 0 <= p < |s.procs| && s.procs[p].fate.Cancelled? && !s.procs[p].home.OfEpoch? ==>
          s.procs[p].home.OfRetry? && (s.me.debt.applied || s.redo.pc == RetryCancelled(true)))
    && (forall p :: 0 <= p < |s.procs| && s.procs[p].late ==> s.procs[p].fate.Aborted?)
  }

  predicate CancelsOk(s: State) {
    && Timely(s) && RetryNotes(s)
    && (s.me.debt.required && !s.desk.transferred ==> SomeAccepted(s.procs))
  }

  /** An epoch that is being retired owns the newest process. */
  lemma DecidingLast(s: State, j: nat)
    requires Placed(s) && j < |s.epochs| && s.epochs[j].retire.Deciding?
    ensures !PastWait(s.shut.cleanup) && |s.procs| > 0 && s.procs[|s.procs| - 1].home == OfEpoch(j)
  {
    assert EpochOk(s.me, s.shut.closer, |s.epochs|, Vacant(s.epochs), j, s.epochs[j], s.procs);
    assert OpsOf(s.epochs[j]) > 0;
    OwnsNewest(s, j);
  }

  lemma MovedTimely(s: State, i: nat, f: Effect)
    requires Placed(s) && Timely(s) && i < |s.epochs| && PlaceMoves(s.me, f.me, i)
    requires Grown(s.procs, f.procs) && StaysApart(s.me, i, s.procs, f) && CancelsWell(s.me, s.procs, s.epochs[i], f)
    ensures Timely(Do(s, i, f))
  {
    var t := Do(s, i, f);
    forall j | 0 <= j < |t.epochs| && t.epochs[j].retire.Deciding? ensures CancelFree(t.procs) {
      if s.epochs[j].retire.Deciding? { DecidingLast(s, j); }
    }
  }

  lemma MovedNotes(s: State, i: nat, f: Effect)
    requires Placed(s) && RetryNotes(s) && i < |s.epochs| && Grown(s.procs, f.procs) && StaysApart(s.me, i, s.procs, f)
    requires PastWait(s.shut.cleanup) ==> Quiet(s.me, s.procs, f)
    ensures RetryNotes(Do(s, i, f))
  {
  }

  lemma MovedCancels(s: State, i: nat, f: Effect)
    requires Placed(s) && CancelsOk(s) && i < |s.epochs| && PlaceMoves(s.me, f.me, i) && Grown(s.procs, f.procs)
    requires StaysApart(s.me, i, s.procs, f) && CancelsWell(s.me, s.procs, s.epochs[i], f)
    requires PastWait(s.shut.cleanup) ==> Quiet(s.me, s.procs, f)
    ensures CancelsOk(Do(s, i, f))
  {
    MovedTimely(s, i, f);
    MovedNotes(s, i, f);
  }

  lemma StarterMovesCancels(s: State, i: nat, out: Outcome)
    requires Placed(s) && CancelsOk(s) && i < |s.epochs|
    ensures CancelsOk(Do(s, i, StarterStep(s.me, s.procs, i, s.epochs[i], out, s.shut.closer.Detached?)))
  {
    var m, c, len, free, e, ps := s.me, s.shut.closer, |s.epochs|, Vacant(s.epochs), s.epochs[i], s.procs;
    assert EpochOk(m, c, len, free, i, e, ps) && EpochShape(e);
    StarterMove(m, c, len, free, i, e, ps, out);
    StarterApart(m, c, i, e, ps, out);
    StarterCancels(m, c, len, free, i, e, ps, out);
    if PastWait(s.shut.cleanup) { StarterQuiet(m, c, len, free, i, e, ps, out); }
    MovedCancels(s, i, StarterStep(s.me, s.procs, i, s.epochs[i], out, s.shut.closer.Detached?));
  }

  lemma WaiterMovesCancels(s: State, i: nat, ok: bool)
    requires Placed(s) && CancelsOk(s) && i < |s.epochs|
    ensures CancelsOk(Do(s, i, WaiterStep(s.me, s.procs, s.epochs[i], ok)))
  {
    var m, c, len, free, e, ps := s.me, s.shut.closer, |s.epochs|, Vacant(s.epochs), s.epochs[i], s.procs;
    assert EpochOk(m, c, len, free, i, e, ps) && EpochShape(e);
    WaiterMove(m, c, len, free, i, e, ps, ok);
    WaiterApart(m, i, e, ps, ok);
    WaiterCancels(m, i, e, ps, ok);
    if PastWait(s.shut.cleanup) { WaiterQuiet(m, c, len, free, i, e, ps, ok); }
    MovedCancels(s, i, WaiterStep(s.me, s.procs, s.epochs[i], ok));
  }

  lemma RetireMovesCancels(s: State, i: nat)
    requires Placed(s) && CancelsOk(s) && i < |s.epochs|
    ensures CancelsOk(Do(s, i, RetireStep(s.me, s.procs, i, s.epochs[i])))
  {
    var m, c, len, free, e, ps := s.me, s.shut.closer, |s.epochs|, Vacant(s.epochs), s.epochs[i], s.procs;
    assert EpochOk(m, c, len, free, i, e, ps) && EpochShape(e);
    RetireMove(m, c, len, free, i, e, ps);
    RetireApart(m, i, e, ps);
    RetireCancels(m, i, e, ps);
    if PastWait(s.shut.cleanup) { RetireQuiet(m, c, len, free, i, e, ps); }
    MovedCancels(s, i, RetireStep(s.me, s.procs, i, s.epochs[i]));
  }

  lemma StopMovesCancels(s: State, i: nat, ok: bool)
    requires Placed(s) && CancelsOk(s) && i < |s.epochs|
    ensures CancelsOk(Do(s, i, StopStep(s.me, s.procs, s.epochs[i], ok)))
  {
    var m, c, len, free, e, ps := s.me, s.shut.closer, |s.epochs|, Vacant(s.epochs), s.epochs[i], s.procs;
    assert EpochOk(m, c, len, free, i, e, ps) && EpochShape(e);
    StopMove(m, c, len, free, i, e, ps, ok);
    StopApart(m, i, e, ps, ok);
    StopCancels(m, c, len, free, i, e, ps, ok);
    if PastWait(s.shut.cleanup) { StopQuiet(m, c, len, free, i, e, ps, ok); }
    MovedCancels(s, i, StopStep(s.me, s.procs, s.epochs[i], ok));
  }

  lemma GoroutineCancels(s: State, a: Action)
    requires Placed(s) && CancelsOk(s) && (a.StarterMoves? || a.WaiterMoves? || a.RetireMoves? || a.StopMoves?) && a.i < |s.epochs|
    ensures CancelsOk(Step(s, a))
  {
    if a.StarterMoves? {
      StarterMovesCancels(s, a.i, a.out);
    } else if a.WaiterMoves? {
      WaiterMovesCancels(s, a.i, a.ok);
    } else if a.RetireMoves? {
      RetireMovesCancels(s, a.i);
    } else {
      StopMovesCancels(s, a.i, a.ok);
    }
  }

  // ----- the other actions -----

  predicate AcceptedStay(ps: seq<Proc>, qs: seq<Proc>) {
    |ps| <= |qs| && forall p :: 0 <= p < |ps| && ps[p].accepted ==> qs[p].accepted
  }

  lemma StillAccepted(ps: seq<Proc>, qs: seq<Proc>)
    requires AcceptedStay(ps, qs) && SomeAccepted(ps)
    ensures SomeAccepted(qs)
  {
    var p :| 0 <= p < |ps| && ps[p].accepted;
    assert qs[p].accepted;
  }

  lemma RetryAccepts(s: State, out: Outcome)
    ensures var t := RetryStep(s, out); AcceptedStay(s.procs, t.procs) && t.me.debt.required == s.me.debt.required && t.desk == s.desk
  {
  }

  lemma RetryKeepsNotes(s: State, out: Outcome)
    requires Placed(s) && RetryOk(s.redo.pc, s.me, s.procs) && RetryHome(s.redo.pc, s.procs) && RetryNotes(s)
    ensures RetryNotes(RetryStep(s, out))
  {
  }

  lemma RetryCancels(s: State, out: Outcome)
    requires Placed(s) && DebtOk(s) && RetryHome(s.redo.pc, s.procs) && CancelsOk(s)
    ensures CancelsOk(RetryStep(s, out))
  {
    RetryCloses(s, out);
    RetryAccepts(s, out);
    RetryKeepsNotes(s, out);
    if SomeAccepted(s.procs) { StillAccepted(s.procs, RetryStep(s, out).procs); }
  }

  /** A retry works after cleanup has waited, when no epoch is being retired. */
  lemma RetryCloses(s: State, out: Outcome)
    requires Placed(s) && CancelsOk(s)
    ensures Timely(RetryStep(s, out))
  {
    forall j | 0 <= j < |s.epochs| && s.epochs[j].retire.Deciding? ensures !PastWait(s.shut.cleanup) { DecidingLast(s, j); }
  }

  lemma SessionCancels(s: State, a: Action)
    requires Placed(s) && CancelsOk(s)
    requires a.StartEpoch? || a.BeginNextRound? || a.PluginReady? || a.RoundReserved? || a.Interrupt?
    ensures CancelsOk(Step(s, a))
  {
  }

  lemma DetachCancels(s: State)
    requires CancelsOk(s)
    ensures CancelsOk(DetachStep(s))
  {
    if DetachStep(s) != s {
      forall j | 0 <= j < |s.epochs| ensures DetachStep(s).epochs[j].retire == s.epochs[j].retire {
        EnqueuedAt(s.epochs, s.me.epoch, s.me.retiring, j);
      }
    }
  }

  lemma ProcsCancels(s: State, a: Action)
    requires CancelsOk(s) && (a.ProcessDies? || a.LateWrite?)
    ensures CancelsOk(Step(s, a))
  {
    if SomeAccepted(s.procs) { StillAccepted(s.procs, Step(s, a).procs); }
  }

  lemma CleanupCancels(s: State)
    requires CancelsOk(s)
    ensures CancelsOk(CleanupStep(s))
  {
  }

  lemma ClosingCancels(s: State, a: Action)
    requires Placed(s) && CancelsOk(s) && (a.SetTerminal? || a.MarkClosed? || a.Claim? || a.FinishClose?)
    ensures CancelsOk(Step(s, a))
  {
  }

  lemma DeskCancels(s: State, a: Action)
    requires CancelsOk(s) && (a.StartRecovery? || a.RecoveryMoves? || a.Publish? || a.Forget? || a.Transfer?)
    ensures CancelsOk(Step(s, a))
  {
  }

  lemma StepCancels(s: State, a: Action)
    requires Placed(s) && DebtOk(s) && RetryHome(s.redo.pc, s.procs) && CancelsOk(s)
    ensures CancelsOk(Step(s, a))
  {
    if a.StarterMoves? || a.WaiterMoves? || a.RetireMoves? || a.StopMoves? {
      if a.i < |s.epochs| { GoroutineCancels(s, a); }
    } else if a.StartEpoch? || a.BeginNextRound? || a.PluginReady? || a.RoundReserved? || a.Interrupt? {
      SessionCancels(s, a);
    } else if a.Detach? {
      DetachCancels(s);
    } else if a.ProcessDies? || a.LateWrite? {
      ProcsCancels(s, a);
    } else if a.CleanupMoves? {
      CleanupCancels(s);
    } else if a.RetryMoves? {
      RetryCancels(s, a.out);
    } else if a.SetTerminal? || a.MarkClosed? || a.Claim? || a.FinishClose? {
      ClosingCancels(s, a);
    } else {
      DeskCancels(s, a);
    }
  }

  lemma {:induction false} ReachCancels(t: Trace)
    ensures CancelsOk(Reach(t))
  {
    match t
    case Born(inherits) => if inherits { assert NewSession(inherits).procs[0].accepted; }
    case After(before, action) =>
      ReachCancels(before);
      ReachDebt(before);
      ReachGuard(before);
      StepCancels(Reach(before), action);
  }
}
