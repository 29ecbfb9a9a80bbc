/** What the Agent may rely on, in every interleaving of a plugin peer session. */
module PeerLifecycleTheorems {
  import opened Prelude
  import opened PeerLifecycle
  import opened PeerLifecycleLocks
  import opened PeerLifecyclePlaces
  import opened PeerLifecycleDebt
  import opened PeerLifecycleGuard
  import opened PeerLifecycleCancels
  import opened PeerLifecycleExact

  // ----- cancellation debt -----

  /** What a cancel receipt is worth, in every interleaving: once it is published or certain, a Cancel is still owed
      if and only if some plugin took Open (one inherited from an earlier object of the session counts) and
      cancelApplied was never set. That takes the Hub to have ended the session. */
  lemma {:induction false} ReceiptExactly(t: Trace)
    requires Receipted(Reach(t))
    ensures Owes(Reach(t).procs) <==> !Reach(t).me.debt.applied && SomeTook(Reach(t).procs)
    ensures Owes(Reach(t).procs) ==> Reach(t).me.status.terminal
  {
    var s := Reach(t);
    ReachDebt(t);
    ReachLedgers(t);
    ReachCancels(t);
    ReachRecord(t);
    if !s.desk.transferred { SettledExactly(s); }
  }

  /** cancelFromHub: it waits for cleanupDone and reads the flags. */
  predicate HubCancelAcked(s: State) {
    s.shut.cleanup.Finished? && Graceful(s.me) && !Owing(s.me)
  }

  /** The session as a replayed prepare found it, if one took the debt over. */
  function HandOver(t: Trace): Option<State> {
    match t
    case Born(_) => None
    case After(before, a) =>
      if HandOver(before).Some? then HandOver(before)
      else if a.Transfer? && CanTransfer(Reach(before)) then Some(Reach(before)) else None
  }

  /** Processes of a session that was handed over only die, or their Open ends. */
  predicate OnlyLose(ps: seq<Proc>, qs: seq<Proc>) {
    |ps| == |qs| && forall p :: 0 <= p < |ps| ==>
      (ps[p].accepted ==> qs[p].accepted) && (Took(qs[p]) ==> Took(ps[p])) && (Pays(qs[p]) <==> Pays(ps[p]))
  }

  lemma SessionSparesProcs(s: State, a: Action)
    requires a.StartEpoch? || a.BeginNextRound? || a.PluginReady? || a.RoundReserved? || a.Interrupt? || a.Detach?
    ensures Step(s, a).procs == s.procs && Step(s, a).desk == s.desk
  {
  }

  lemma DeskSparesProcs(s: State, a: Action)
    requires a.SetTerminal? || a.MarkClosed? || a.Claim? || a.FinishClose? || a.CleanupMoves? || a.StartRecovery? || a.RecoveryMoves?
      || a.Publish? || a.Forget? || a.Transfer?
    ensures Step(s, a).procs == s.procs && (s.desk.transferred ==> Step(s, a).desk.transferred)
  {
  }

  lemma ProcsLose(s: State, a: Action)
    requires (a.ProcessDies? || a.LateWrite?) && RetryNotes(s)
    ensures OnlyLose(s.procs, Step(s, a).procs) && Step(s, a).desk == s.desk
  {
  }

  lemma HandedStep(s: State, a: Action)
    requires Placed(s) && FlagsOk(s) && RetryNotes(s) && s.desk.transferred
    ensures OnlyLose(s.procs, Step(s, a).procs) && Step(s, a).desk.transferred
  {
    if a.StarterMoves? || a.WaiterMoves? || a.RetireMoves? || a.StopMoves? {
      if a.i < |s.epochs| { GoroutineQuiet(s, a); }
    } else if a.ProcessDies? || a.LateWrite? {
      ProcsLose(s, a);
    } else if a.RetryMoves? {
      assert s.redo.pc.Idle?;
    } else if a.StartEpoch? || a.BeginNextRound? || a.PluginReady? || a.RoundReserved? || a.Interrupt? || a.Detach? {
      SessionSparesProcs(s, a);
    } else {
      DeskSparesProcs(s, a);
    }
  }

  lemma {:induction false} HandedOver(t: Trace)
    ensures Reach(t).desk.transferred <==> HandOver(t).Some?
    ensures HandOver(t).Some? ==> OnlyLose(HandOver(t).value.procs, Reach(t).procs)
    ensures HandOver(t).Some? ==> exists u :: Reach(u) == HandOver(t).value && CanTransfer(Reach(u))
  {
    match t
    case Born(_) =>
    case After(before, a) =>
      HandedOver(before);
      ReachDebt(before);
      ReachCancels(before);
      if Reach(before).desk.transferred {
        HandedStep(Reach(before), a);
      } else {
        TransferredOnce(Reach(before), a);
      }
  }

  lemma TransferredOnce(s: State, a: Action)
    requires !s.desk.transferred
    ensures Step(s, a).desk.transferred <==> a.Transfer? && CanTransfer(s)
    ensures a.Transfer? ==> Step(s, a).procs == s.procs
  {
  }

  lemma OnlyLoseOwes(ps: seq<Proc>, qs: seq<Proc>)
    requires OnlyLose(ps, qs)
    ensures Owes(qs) ==> Owes(ps)
    ensures Owes(ps) && SomeAccepted(ps) && (forall p :: 0 <= p < |ps| ==> !Pays(ps[p])) ==> Owes(qs)
  {
    if Owes(qs) {
      var q :| 0 <= q < |qs| && Unpaid(qs, q);
      assert Unpaid(ps, q);
    }
    if SomeAccepted(ps) && forall p :: 0 <= p < |ps| ==> !Pays(ps[p]) {
      var p :| 0 <= p < |ps| && ps[p].accepted;
      assert Unpaid(qs, p);
    }
  }

  /** A recorded debt that nobody works on is owed exactly while no Cancel was applied, and stays so when it is handed over. */
  lemma HandedDebt(h: State, qs: seq<Proc>)
    requires Placed(h) && FlagsOk(h) && Ledgers(h) && CancelsOk(h) && RecordOk(h)
    requires CanTransfer(h) && OnlyLose(h.procs, qs)
    ensures Owes(qs) <==> Owing(h.me)
  {
    OwedExactly(h);
    OnlyLoseOwes(h.procs, qs);
    if Owing(h.me) {
      forall p | 0 <= p < |h.procs| ensures !Pays(h.procs[p]) {
        if Pays(h.procs[p]) { PaymentIsNoted(h, p); }
      }
      AcceptedTook(h.procs);
    }
  }

  lemma AcceptedTook(ps: seq<Proc>)
    requires SomeAccepted(ps)
    ensures SomeTook(ps)
  {
    var p :| 0 <= p < |ps| && ps[p].accepted;
    assert Took(ps[p]);
  }

  /** The durable cancellation is acknowledged to the Hub, in every interleaving, exactly as follows. While the debt is
      with this object, something is still owed if and only if a plugin took Open and nothing was applied, and then the
      Hub had ended the session. Once a replayed prepare took the debt over the flags no longer tell: something is owed
      if and only if the debt was owing at that moment. */
  lemma {:induction false} HubAckExactly(t: Trace)
    requires HubCancelAcked(Reach(t))
    ensures Owes(Reach(t).procs) <==>
      match HandOver(t)
      case None => !Reach(t).me.debt.applied && SomeTook(Reach(t).procs)
      case Some(h) => Owing(h.me)
    ensures Owes(Reach(t).procs) && HandOver(t).None? ==> Reach(t).me.status.terminal
  {
    ReachDebt(t);
    ReachLedgers(t);
    ReachCancels(t);
    HandedOver(t);
    if HandOver(t).Some? {
      var u :| Reach(u) == HandOver(t).value && CanTransfer(Reach(u));
      ReachDebt(u);
      ReachLedgers(u);
      ReachCancels(u);
      ReachRecord(u);
      HandedDebt(Reach(u), Reach(t).procs);
    } else {
      SettledExactly(Reach(t));
    }
  }

  /** The debt was taken from the books: another life of the session needs no recovery, or it ended at the Hub. */
  predicate Forgot(t: Trace) {
    match t case Born(_) => false case After(before, a) => a.Forget? || Forgot(before)
  }

  predicate PastRecord(c: Cleanup) {
    c.Dropping? || PastDrop(c)
  }

  /** Past its verdict a session that still requires a Cancel is on record, unless it was forgotten or handed over. */
  predicate OnRecord(s: State, forgot: bool) {
    PastRecord(s.shut.cleanup) && !s.me.status.terminal && !s.desk.transferred && !forgot && Owing(s.me) ==> s.desk.recorded
  }

  lemma CleanupOnRecord(s: State, forgot: bool)
    requires VerdictOk(s) && OnRecord(s, forgot)
    ensures OnRecord(CleanupStep(s), forgot)
  {
    if s.shut.cleanup.Recording? { if s.shut.cleanup.receipt {} else {} } else { CleanupLeaves(s); }
  }

  lemma RecoveryOnRecord(s: State, a: Action, forgot: bool)
    requires VerdictOk(s) && OnRecord(s, forgot) && (a.Publish? || a.RecoveryMoves?)
    ensures OnRecord(Step(s, a), forgot)
  {
    if a.Publish? {
      if s.redo.publishing == 0 {} else {}
    } else {
      if s.redo.recovery.Wanting? {} else {}
    }
  }

  lemma GoroutineOnRecord(s: State, a: Action, forgot: bool)
    requires Placed(s) && OnRecord(s, forgot) && (a.StarterMoves? || a.WaiterMoves? || a.RetireMoves? || a.StopMoves?)
    ensures OnRecord(Step(s, a), forgot)
  {
    if a.i < |s.epochs| && PastWait(s.shut.cleanup) { GoroutineQuiet(s, a); }
  }

  lemma StepOnRecord(s: State, a: Action, forgot: bool)
    requires Placed(s) && DebtOk(s) && OnRecord(s, forgot)
    ensures OnRecord(Step(s, a), forgot || a.Forget?)
  {
    if a.StarterMoves? || a.WaiterMoves? || a.RetireMoves? || a.StopMoves? {
      GoroutineOnRecord(s, a, forgot);
    } else if a.CleanupMoves? {
      CleanupOnRecord(s, forgot);
    } else if a.RetryMoves? {
      RetryLeaves(s, a.out);
    } else if a.Publish? || a.RecoveryMoves? {
      RecoveryOnRecord(s, a, forgot);
    } else {
      OthersLeave(s, a);
    }
  }

  lemma GoroutineQuiet(s: State, a: Action)
    requires Placed(s) && (a.StarterMoves? || a.WaiterMoves? || a.RetireMoves? || a.StopMoves?) && a.i < |s.epochs| && PastWait(s.shut.cleanup)
    ensures var t := Step(s, a); t.me.debt == s.me.debt && t.me.status == s.me.status && t.shut == s.shut && t.desk == s.desk && t.procs == s.procs
  {
    var m, c, len, free, i, e, ps := s.me, s.shut.closer, |s.epochs|, Vacant(s.epochs), a.i, s.epochs[a.i], s.procs;
    assert EpochOk(m, c, len, free, i, e, ps) && EpochShape(e) && OpsOf(e) == 0;
    match a
    case StarterMoves(_, out) => StarterQuiet(m, c, len, free, i, e, ps, out);
    case WaiterMoves(_, ok) => WaiterQuiet(m, c, len, free, i, e, ps, ok);
    case RetireMoves(_) => RetireQuiet(m, c, len, free, i, e, ps);
    case StopMoves(_, ok) => StopQuiet(m, c, len, free, i, e, ps, ok);
  }

  lemma CleanupLeaves(s: State)
    requires !s.shut.cleanup.Recording?
    ensures var t := CleanupStep(s);
      && t.me.debt == s.me.debt && t.me.status == s.me.status && t.desk.recorded == s.desk.recorded && t.desk.transferred == s.desk.transferred
      && (PastRecord(t.shut.cleanup) ==> PastRecord(s.shut.cleanup))
  {
  }

  lemma RetryLeaves(s: State, out: Outcome)
    ensures var t := RetryStep(s, out);
      && (Owing(t.me) ==> Owing(s.me)) && t.me.status == s.me.status && t.desk == s.desk
      && (PastRecord(t.shut.cleanup) ==> PastRecord(s.shut.cleanup))
  {
  }

  lemma OthersLeave(s: State, a: Action)
    requires a.StartEpoch? || a.BeginNextRound? || a.PluginReady? || a.RoundReserved? || a.Interrupt? || a.Detach? || a.ProcessDies?
      || a.SetTerminal? || a.MarkClosed? || a.Claim? || a.FinishClose? || a.LateWrite? || a.StartRecovery? || a.Forget? || a.Transfer?
    ensures var t := Step(s, a);
      && (Owing(t.me) ==> Owing(s.me)) && (s.me.status.terminal ==> t.me.status.terminal)
      && (PastRecord(t.shut.cleanup) ==> PastRecord(s.shut.cleanup))
      && (s.desk.transferred ==> t.desk.transferred) && (t.desk.recorded == s.desk.recorded || a.Forget? || t.desk.transferred)
  {
  }

  lemma {:induction false} ReachOnRecord(t: Trace)
    ensures OnRecord(Reach(t), Forgot(t))
  {
    match t
    case Born(_) =>
    case After(before, a) =>
      ReachOnRecord(before);
      ReachDebt(before);
      StepOnRecord(Reach(before), a, Forgot(before));
  }

  /** At any time of any run: a session that has left the table and still owes a Cancel is recorded for recovery,
      unless the Hub ended it, or the record was taken away: forgotten, or handed over to a new object. */
  lemma {:induction false} DebtStaysRecorded(t: Trace)
    requires !Reach(t).desk.listed && Owes(Reach(t).procs) && !Reach(t).me.status.terminal
    ensures Reach(t).desk.recorded || Reach(t).desk.transferred || Forgot(t)
  {
    ReachDebt(t);
    NothingPendingAfterWait(Reach(t));
    ReachOnRecord(t);
  }

  /** A session leaves the table only after its verdict. */
  lemma {:induction false} VerdictBeforeDrop(t: Trace)
    ensures !Reach(t).desk.listed ==> PastDrop(Reach(t).shut.cleanup)
  {
    ReachDebt(t);
  }

  /** No process runs when a session leaves the table; afterwards only a recovery runs one. */
  lemma {:induction false} DropsNothingAlive(t: Trace, p: nat)
    requires Reach(t).shut.cleanup.Dropping? || !Reach(t).desk.listed
    requires p < |Reach(t).procs| && Reach(t).procs[p].fate.Live?
    ensures !Reach(t).desk.listed && Reach(t).redo.recovery.InRetry?
  {
    ReachDebt(t);
    NothingLiveAfterWait(Reach(t));
  }

  /** The object a replayed prepare builds in place of one whose debt is recorded. */
  function Successor(s: State): State {
    NewSession(Owing(s.me))
  }

  lemma OwingIsInherited(s: State)
    requires Placed(s) && DebtOk(s) && CanTransfer(s) && !s.me.status.terminal
    ensures Owes(s.procs) ==> Owes(Successor(s).procs)
  {
    NothingPendingAfterWait(s);
    assert Owing(s.me) ==> Unpaid(Successor(s).procs, 0);
  }

  /** The obligation is never lost in the hand-over, and the old object starts no recovery any more. */
  lemma {:induction false} TransferMovesDebt(t: Trace)
    requires CanTransfer(Reach(t)) && !Reach(t).me.status.terminal
    ensures Owes(Reach(t).procs) ==> Owes(Successor(Reach(t)).procs)
    ensures var after := TransferStep(Reach(t)); !RecoveryWanted(after) && after.redo.recovery.Off?
  {
    ReachDebt(t);
    OwingIsInherited(Reach(t));
  }

  // ----- locks -----

  predicate AtRest(s: State) {
    && (forall i :: 0 <= i < |s.epochs| ==>
          var e := s.epochs[i];
          && (e.starter.Unstarted? || e.starter.Gone?) && (e.waiter.NoWaiter? || e.waiter.Returned?) && !RetireOwnsOp(e.retire))
    && s.shut.cleanup.Finished? && s.redo.pc.Idle?
    && (forall p :: 0 <= p < |s.procs| ==> !s.procs[p].late)
  }

  /** Every read lock and every plugin operation has one owner that will give it back; and the done channel
      is closed exactly when cleanup ends. */
  lemma {:induction false} LocksBalance(t: Trace)
    ensures Reach(t).me.locks == Holders(Reach(t)) && Reach(t).me.ops == OpsHeld(Reach(t).epochs)
    ensures Reach(t).shut.doneClosed == (if Reach(t).shut.cleanup.Finished? then 1 else 0)
  {
    ReachAccounted(t);
  }

  /** So when every goroutine is through, each was given back exactly once, whatever path was taken. */
  lemma {:induction false} AllGivenBack(t: Trace)
    requires AtRest(Reach(t))
    ensures Reach(t).me.locks == 0 && Reach(t).me.ops == 0
  {
    ReachAccounted(t);
    NobodyHolds(Reach(t));
  }

  lemma NobodyHolds(s: State)
    requires Accounted(s) && AtRest(s)
    ensures s.me.locks == 0 && s.me.ops == 0
  {
    forall i | 0 <= i < |s.epochs| ensures s.epochs[i].local.Free? && OpsOf(s.epochs[i]) == 0 {
      assert EpochShape(s.epochs[i]);
    }
    NothingHeld(s.epochs, s.procs);
  }

  /** At most one process of a session is alive. */
  lemma {:induction false} OneLiveProcess(t: Trace, p: nat, q: nat)
    requires p < |Reach(t).procs| && q < |Reach(t).procs|
    requires Reach(t).procs[p].fate.Live? && Reach(t).procs[q].fate.Live?
    ensures p == q == |Reach(t).procs| - 1
  {
    ReachPlaced(t);
  }

  predicate LastLive(s: State) {
    |s.procs| > 0 && s.procs[|s.procs| - 1].fate.Live?
  }

  /** The first Open of the session failed or timed out, and both goroutines that held the lock for it
      have let go before the process was stopped. */
  predicate LockGap(s: State) {
    && LastLive(s) && s.procs[|s.procs| - 1].home.OfEpoch? && !AnyCommitted(s.epochs)
    && s.procs[|s.procs| - 1].home.index < |s.epochs|
    && !Owns(s.epochs[s.procs[|s.procs| - 1].home.index])
  }

  lemma OnlyLastStarted(s: State, i: nat)
    requires Placed(s) && !AnyCommitted(s.epochs) && i < |s.epochs|
    ensures i + 1 < |s.epochs| ==> s.epochs[i].starter.Unstarted? && s.epochs[i].local.Free?
  {
    assert EpochOk(s.me, s.shut.closer, |s.epochs|, Vacant(s.epochs), i, s.epochs[i], s.procs) && EpochShape(s.epochs[i]);
  }

  lemma BeforeWait(s: State)
    requires Placed(s) && LastLive(s)
    ensures s.procs[|s.procs| - 1].home.OfEpoch? ==> !PastWait(s.shut.cleanup) && s.redo.pc.Idle?
  {
    if PastWait(s.shut.cleanup) { NothingLiveAfterWait(s); }
    if s.procs[|s.procs| - 1].home.OfEpoch? && PastWait(s.shut.cleanup) {
      NoKeeperAfterWait(s, s.procs[|s.procs| - 1].home.index, |s.procs| - 1);
    }
  }

  lemma GapUnlocked(s: State)
    requires Placed(s) && Accounted(s) && GuardOk(s) && LockGap(s)
    ensures s.me.locks == 0
  {
    var i := s.procs[|s.procs| - 1].home.index;
    BeforeWait(s);
    assert s.redo.lock.Free? && !GuardHeld(s);
    assert EpochOk(s.me, s.shut.closer, |s.epochs|, Vacant(s.epochs), i, s.epochs[i], s.procs) && EpochShape(s.epochs[i]);
    OnlyLastStarted(s, i);
    forall j | 0 <= j < |s.epochs| ensures s.epochs[j].local.Free? { OnlyLastStarted(s, j); }
    NothingHeld(s.epochs, s.procs);
  }

  /** While a process of the session is alive the session holds a read lock on its plugin, so that no
      install or uninstall runs beside it, except exactly in the lock gap. */
  lemma {:induction false} LockCoversLive(t: Trace)
    requires LastLive(Reach(t))
    ensures Reach(t).me.locks >= 0
    ensures Reach(t).me.locks == 0 <==> LockGap(Reach(t))
  {
    ReachGuard(t);
    ReachAccounted(t);
    LockCovers(Reach(t));
  }

  lemma LockCovers(s: State)
    requires Placed(s) && Accounted(s) && GuardOk(s) && LastLive(s)
    ensures s.me.locks >= 0
    ensures s.me.locks == 0 <==> LockGap(s)
  {
    if LockGap(s) {
      GapUnlocked(s);
    } else if s.procs[|s.procs| - 1].home.OfEpoch? {
      BeforeWait(s);
      OpsCover(s.epochs, s.procs[|s.procs| - 1].home.index);
    }
  }

  predicate BeingClosed(s: State)
    requires LockGap(s)
  {
    var e := s.epochs[s.procs[|s.procs| - 1].home.index];
    && e.plugin == Some(|s.procs| - 1)
    && (e.stop.Queued? || e.stop.Flagged? || s.me.status.closed || e.starter == Failing(false))
  }

  /** The gap is bounded: the stop of that process is already queued or about to be claimed. */
  lemma {:induction false} GapIsBeingClosed(t: Trace)
    requires LockGap(Reach(t))
    ensures BeingClosed(Reach(t))
  {
    ReachGuard(t);
    GapPlace(Reach(t));
  }

  lemma GapPlace(s: State)
    requires Placed(s) && LockGap(s)
    ensures BeingClosed(s)
  {
    var i := s.procs[|s.procs| - 1].home.index;
    assert EpochOk(s.me, s.shut.closer, |s.epochs|, Vacant(s.epochs), i, s.epochs[i], s.procs) && EpochShape(s.epochs[i]);
  }
}
