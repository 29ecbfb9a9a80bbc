/** What a cancel receipt is worth, exactly: the flags of the session say when something is still owed behind it. */
module PeerLifecycleExact {
  import opened Prelude
  import opened PeerLifecycle
  import opened PeerLifecycleLocks
  import opened PeerLifecyclePlaces
  import opened PeerLifecycleDebt
  import opened PeerLifecycleGuard
  import opened PeerLifecycleCancels

  // ----- what an epoch knows of its process -----

  /** Open is being written, by the starter or behind its back. */
  predicate OpenPending(e: Epoch) {
    e.starter.Writing? || e.waiter.Waiting?
  }

  predicate TakenUnnoted(e: Epoch) {
    e.starter.Wrote? || e.waiter.Heard?
  }

  /** A process `p` of the epoch: if it took Open, the epoch owns it and has noted it or will; if it took Open and
      was cancelled, the session has noted that a Cancel was applied, or will. */
  predicate Known(applied: bool, e: Epoch, p: nat, q: Proc) {
    && !q.late && (e.starter == Opened(p) ==> !q.fate.Cancelled?)
    && (q.accepted ==> e.plugin == Some(p) && (!e.open.Unapplied? || TakenUnnoted(e)))
    && (q.fate.Cancelled? && OpenPending(e) && e.plugin == Some(p) ==> e.stop.CancelReturned? || e.cancelled.Some?)
    && (Pays(q) ==>
          applied || e.stop == CancelReturned(true) || e.starter.Crediting? || (TakenUnnoted(e) && e.cancelled == Some(true)))
  }

  predicate Ledger(m: Session, e: Epoch, i: nat, ps: seq<Proc>) {
    forall p :: 0 <= p < |ps| && ps[p].home == OfEpoch(i) ==> Known(m.debt.applied, e, p, ps[p])
  }

  predicate Ledgers(s: State) {
    forall i :: 0 <= i < |s.epochs| ==> Ledger(s.me, s.epochs[i], i, s.procs)
  }

  /** cancelApplied is taken back only while nothing was cancelled. */
  predicate FlagStays(m: Session, n: Session, ps: seq<Proc>) {
    m.debt.applied ==> n.debt.applied || CancelFree(ps)
  }

  predicate Keeps1(m: Session, i: nat, ps: seq<Proc>, f: Effect) {
    Ledger(f.me, f.e, i, f.procs) && FlagStays(m, f.me, ps) && OthersStay(i, ps, f.procs)
  }

  lemma LocksKeep(m: Session, c: Closer, len: nat, free: bool, i: nat, e: Epoch, ps: seq<Proc>)
    requires EpochOk(m, c, len, free, i, e, ps) && Ledger(m, e, i, ps) && (e.starter.Acquire? || e.starter.Blocking? || e.starter.Locked?)
    ensures Keeps1(m, i, ps, StarterLocks(m, ps, i, e))
  {
  }

  lemma OpensKeep(m: Session, c: Closer, len: nat, free: bool, i: nat, e: Epoch, ps: seq<Proc>, out: Outcome)
    requires EpochOk(m, c, len, free, i, e, ps) && Ledger(m, e, i, ps) && EpochShape(e) && (e.starter.Opening? || e.starter.Opened?)
    ensures Keeps1(m, i, ps, StarterOpens(m, ps, i, e, out))
  {
  }

  lemma WritesKeep(m: Session, c: Closer, len: nat, free: bool, i: nat, e: Epoch, ps: seq<Proc>, out: Outcome)
    requires EpochOk(m, c, len, free, i, e, ps) && Ledger(m, e, i, ps) && EpochShape(e) && (e.starter.Writing? || e.starter.Wrote?)
    ensures Keeps1(m, i, ps, StarterWrites(m, ps, i, e, out))
  {
  }

  lemma DiscardsKeep(m: Session, c: Closer, len: nat, free: bool, i: nat, e: Epoch, ps: seq<Proc>, out: Outcome)
    requires EpochOk(m, c, len, free, i, e, ps) && Ledger(m, e, i, ps) && EpochShape(e)
    requires e.starter.Discard? || e.starter.Discarding? || e.starter.Crediting?
    ensures Keeps1(m, i, ps, StarterDiscards(m, ps, e, out))
  {
  }

  lemma LeavesKeep(m: Session, c: Closer, i: nat, e: Epoch, ps: seq<Proc>)
    requires Ledger(m, e, i, ps) && (e.starter.Unstarted? || e.starter.Failing? || e.starter.AwaitingClose? || e.starter.Leaving? || e.starter.Gone?)
    ensures Keeps1(m, i, ps, StarterLeaves(m, ps, i, e, c.Detached?))
  {
  }

  lemma StarterKeeps(m: Session, c: Closer, len: nat, free: bool, i: nat, e: Epoch, ps: seq<Proc>, out: Outcome)
    requires EpochOk(m, c, len, free, i, e, ps) && Ledger(m, e, i, ps) && EpochShape(e)
    ensures Keeps1(m, i, ps, StarterStep(m, ps, i, e, out, c.Detached?))
  {
    if e.starter.Acquire? || e.starter.Blocking? || e.starter.Locked? {
      LocksKeep(m, c, len, free, i, e, ps);
    } else if e.starter.Opening? || e.starter.Opened? {
      OpensKeep(m, c, len, free, i, e, ps, out);
    } else if e.starter.Writing? || e.starter.Wrote? {
      WritesKeep(m, c, len, free, i, e, ps, out);
    } else if e.starter.Discard? || e.starter.Discarding? || e.starter.Crediting? {
      DiscardsKeep(m, c, len, free, i, e, ps, out);
    } else {
      LeavesKeep(m, c, i, e, ps);
    }
  }

  lemma WaiterKeeps(m: Session, c: Closer, len: nat, free: bool, i: nat, e: Epoch, ps: seq<Proc>, ok: bool)
    requires EpochOk(m, c, len, free, i, e, ps) && Ledger(m, e, i, ps) && EpochShape(e)
    ensures Keeps1(m, i, ps, WaiterStep(m, ps, e, ok))
  {
    match e.waiter
    case Waiting => if ok {} else {}
    case Heard =>
    case Returning =>
    case _ =>
  }

  lemma RetireKeeps(m: Session, c: Closer, len: nat, free: bool, i: nat, e: Epoch, ps: seq<Proc>)
    requires EpochOk(m, c, len, free, i, e, ps) && Ledger(m, e, i, ps)
    requires e.retire.Deciding? || (e.retire.Claimed? && !m.status.closed) ==> CancelFree(ps)
    ensures Keeps1(m, i, ps, RetireStep(m, ps, i, e))
  {
    match e.retire
    case Claimed =>
    case Deciding =>
    case Aborting =>
    case _ =>
  }

  lemma StopKeeps(m: Session, c: Closer, len: nat, free: bool, i: nat, e: Epoch, ps: seq<Proc>, ok: bool)
    requires EpochOk(m, c, len, free, i, e, ps) && Ledger(m, e, i, ps)
    requires e.stop.Queued? && !Graceful(m) ==> CancelFree(ps)
    ensures Keeps1(m, i, ps, StopStep(m, ps, e, ok))
  {
    match e.stop
    case Queued => if Graceful(m) {} else {}
    case CancelReturned(_) =>
    case Flagged =>
    case _ =>
  }

  lemma LedgerLater(m: Session, n: Session, e: Epoch, j: nat, ps: seq<Proc>, i: nat, qs: seq<Proc>)
    requires Ledger(m, e, j, ps) && FlagStays(m, n, ps) && OthersStay(i, ps, qs) && i != j
    ensures Ledger(n, e, j, qs)
  {
  }

  lemma MovedLedgers(s: State, i: nat, f: Effect)
    requires Ledgers(s) && i < |s.epochs| && Keeps1(s.me, i, s.procs, f)
    ensures Ledgers(Do(s, i, f))
  {
    var t := Do(s, i, f);
    forall j | 0 <= j < |t.epochs| ensures Ledger(f.me, t.epochs[j], j, f.procs) {
      if j != i { LedgerLater(s.me, f.me, s.epochs[j], j, s.procs, i, f.procs); }
    }
  }

  lemma StarterLedgers(s: State, i: nat, out: Outcome)
    requires Placed(s) && Ledgers(s) && i < |s.epochs|
    ensures Ledgers(Do(s, i, StarterStep(s.me, s.procs, i, s.epochs[i], out, s.shut.closer.Detached?)))
  {
    assert EpochOk(s.me, s.shut.closer, |s.epochs|, Vacant(s.epochs), i, s.epochs[i], s.procs);
    StarterKeeps(s.me, s.shut.closer, |s.epochs|, Vacant(s.epochs), i, s.epochs[i], s.procs, out);
    MovedLedgers(s, i, StarterStep(s.me, s.procs, i, s.epochs[i], out, s.shut.closer.Detached?));
  }

  lemma WaiterLedgers(s: State, i: nat, ok: bool)
    requires Placed(s) && Ledgers(s) && i < |s.epochs|
    ensures Ledgers(Do(s, i, WaiterStep(s.me, s.procs, s.epochs[i], ok)))
  {
    assert EpochOk(s.me, s.shut.closer, |s.epochs|, Vacant(s.epochs), i, s.epochs[i], s.procs);
    WaiterKeeps(s.me, s.shut.closer, |s.epochs|, Vacant(s.epochs), i, s.epochs[i], s.procs, ok);
    MovedLedgers(s, i, WaiterStep(s.me, s.procs, s.epochs[i], ok));
  }

  lemma RetireLedgers(s: State, i: nat)
    requires Placed(s) && Timely(s) && Ledgers(s) && i < |s.epochs|
    ensures Ledgers(Do(s, i, RetireStep(s.me, s.procs, i, s.epochs[i])))
  {
    assert EpochOk(s.me, s.shut.closer, |s.epochs|, Vacant(s.epochs), i, s.epochs[i], s.procs);
    RetireKeeps(s.me, s.shut.closer, |s.epochs|, Vacant(s.epochs), i, s.epochs[i], s.procs);
    MovedLedgers(s, i, RetireStep(s.me, s.procs, i, s.epochs[i]));
  }

  lemma StopLedgers(s: State, i: nat, ok: bool)
    requires Placed(s) && Timely(s) && Ledgers(s) && i < |s.epochs|
    ensures Ledgers(Do(s, i, StopStep(s.me, s.procs, s.epochs[i], ok)))
  {
    assert EpochOk(s.me, s.shut.closer, |s.epochs|, Vacant(s.epochs), i, s.epochs[i], s.procs);
    StopKeeps(s.me, s.shut.closer, |s.epochs|, Vacant(s.epochs), i, s.epochs[i], s.procs, ok);
    MovedLedgers(s, i, StopStep(s.me, s.procs, s.epochs[i], ok));
  }

  // ----- the other actions -----

  predicate SameView(e: Epoch, f: Epoch) {
    && f.starter == e.starter && f.waiter == e.waiter && f.plugin == e.plugin && f.open == e.open && f.cancelled == e.cancelled
    && (f.stop == e.stop || e.stop.Untouched?)
  }

  predicate NoBetter(q: Proc, r: Proc) {
    r.home == q.home && r.late == q.late && r.accepted == q.accepted && (r.fate.Cancelled? ==> q.fate.Cancelled?)
  }

  /** The processes of epochs stay, or die. */
  predicate EpochsProcs(len: nat, ps: seq<Proc>, qs: seq<Proc>) {
    forall p :: 0 <= p < |qs| && qs[p].home.OfEpoch? ==> p < |ps| && qs[p].home.index < len && NoBetter(ps[p], qs[p])
  }

  lemma SameLedgers(s: State, t: State)
    requires Ledgers(s) && |s.epochs| <= |t.epochs| && (s.me.debt.applied ==> t.me.debt.applied)
    requires forall i :: 0 <= i < |s.epochs| ==> SameView(s.epochs[i], t.epochs[i])
    requires EpochsProcs(|s.epochs|, s.procs, t.procs)
    ensures Ledgers(t)
  {
    forall i | 0 <= i < |t.epochs| ensures Ledger(t.me, t.epochs[i], i, t.procs) {
      forall p | 0 <= p < |t.procs| && t.procs[p].home == OfEpoch(i)
        ensures Known(t.me.debt.applied, t.epochs[i], p, t.procs[p])
      {
        assert Ledger(s.me, s.epochs[i], i, s.procs);
        assert Known(s.me.debt.applied, s.epochs[i], p, s.procs[p]);
      }
    }
  }

  lemma RoundsLedgers(s: State, a: Action)
    requires Placed(s) && Ledgers(s) && (a.PluginReady? || a.RoundReserved? || a.Interrupt?)
    ensures Ledgers(RoundAction(s, a))
  {
    SameLedgers(s, RoundAction(s, a));
  }

  lemma DetachLedgers(s: State)
    requires Placed(s) && Ledgers(s)
    ensures Ledgers(DetachStep(s))
  {
    var t := DetachStep(s);
    if t != s {
      assert |t.epochs| == |s.epochs|;
      forall i | 0 <= i < |s.epochs| ensures SameView(s.epochs[i], t.epochs[i]) {
        EnqueuedAt(s.epochs, s.me.epoch, s.me.retiring, i);
        assert EpochOk(s.me, s.shut.closer, |s.epochs|, Vacant(s.epochs), i, s.epochs[i], s.procs);
      }
      SameLedgers(s, t);
    }
  }

  lemma SessionLedgers(s: State, a: Action)
    requires Placed(s) && Ledgers(s)
    requires a.StartEpoch? || a.BeginNextRound? || a.PluginReady? || a.RoundReserved? || a.Interrupt? || a.Detach?
    ensures Ledgers(Step(s, a))
  {
    match a
    case StartEpoch => SameLedgers(s, Started(s));
    case BeginNextRound => SameLedgers(s, NextRound(s));
    case Detach => DetachLedgers(s);
    case _ => RoundsLedgers(s, a);
  }

  lemma RetryProcs(s: State, out: Outcome)
    requires HomesOk(s) && RetryHome(s.redo.pc, s.procs)
    ensures var t := RetryStep(s, out);
            t.epochs == s.epochs && EpochsProcs(|s.epochs|, s.procs, t.procs) && (s.me.debt.applied ==> t.me.debt.applied)
  {
    match s.redo.pc
    case RetryOpened(p) => if out.Good? {} else {}
    case _ =>
  }

  lemma RetryLedgers(s: State, out: Outcome)
    requires Ledgers(s) && HomesOk(s) && RetryHome(s.redo.pc, s.procs)
    ensures Ledgers(RetryStep(s, out))
  {
    RetryProcs(s, out);
    SameLedgers(s, RetryStep(s, out));
  }

  lemma DiesLedgers(s: State)
    requires Ledgers(s) && HomesOk(s) && |s.procs| > 0
    ensures Ledgers(s.(procs := Killed(s.procs, |s.procs| - 1, false)))
  {
    SameLedgers(s, s.(procs := Killed(s.procs, |s.procs| - 1, false)));
  }

  lemma LateLedgers(s: State, p: nat, ok: bool)
    requires Ledgers(s) && HomesOk(s) && (p < |s.procs| && s.procs[p].late ==> s.procs[p].home.OfRetry?)
    ensures Ledgers(LateStep(s, p, ok))
  {
    SameLedgers(s, LateStep(s, p, ok));
  }

  lemma QuietSpares(s: State, a: Action)
    requires a.SetTerminal? || a.MarkClosed? || a.Claim? || a.FinishClose? || a.StartRecovery? || a.RecoveryMoves? || a.Publish?
      || a.Forget? || a.Transfer?
    ensures var t := Step(s, a); t.epochs == s.epochs && t.procs == s.procs && (s.me.debt.applied ==> t.me.debt.applied)
  {
  }

  lemma QuietLedgers(s: State, a: Action)
    requires Ledgers(s) && HomesOk(s)
    requires a.SetTerminal? || a.MarkClosed? || a.Claim? || a.FinishClose? || a.StartRecovery? || a.RecoveryMoves? || a.Publish?
      || a.Forget? || a.Transfer?
    ensures Ledgers(Step(s, a))
  {
    QuietSpares(s, a);
    SameLedgers(s, Step(s, a));
  }

  lemma CleanupLedgers(s: State)
    requires Placed(s) && Ledgers(s)
    ensures Ledgers(CleanupStep(s))
  {
    CleanupSpares(s);
    SameLedgers(s, CleanupStep(s));
  }

  lemma CleanupSpares(s: State)
    ensures var t := CleanupStep(s); t.epochs == s.epochs && t.procs == s.procs && t.me.debt == s.me.debt
  {
  }

  lemma StepLedgers(s: State, a: Action)
    requires Placed(s) && GuardOk(s) && Timely(s) && Ledgers(s)
    ensures Ledgers(Step(s, a))
  {
    if a.StarterMoves? {
      if a.i < |s.epochs| { StarterLedgers(s, a.i, a.out); }
    } else if a.WaiterMoves? {
      if a.i < |s.epochs| { WaiterLedgers(s, a.i, a.ok); }
    } else if a.RetireMoves? {
      if a.i < |s.epochs| { RetireLedgers(s, a.i); }
    } else if a.StopMoves? {
      if a.i < |s.epochs| { StopLedgers(s, a.i, a.ok); }
    } else if a.StartEpoch? || a.BeginNextRound? || a.PluginReady? || a.RoundReserved? || a.Interrupt? || a.Detach? {
      SessionLedgers(s, a);
    } else if a.CleanupMoves? {
      CleanupLedgers(s);
    } else if a.RetryMoves? {
      RetryLedgers(s, a.out);
    } else if a.ProcessDies? {
      if |s.procs| > 0 { DiesLedgers(s); }
    } else if a.LateWrite? {
      LateLedgers(s, a.p, a.ok);
    } else {
      QuietLedgers(s, a);
    }
  }

  lemma {:induction false} ReachLedgers(t: Trace)
    ensures Ledgers(Reach(t))
  {
    match t
    case Born(inherits) =>
    case After(before, action) =>
      ReachLedgers(before);
      ReachCancels(before);
      ReachGuard(before);
      StepLedgers(Reach(before), action);
  }

  // ----- what is recorded -----

  /** A debt is recorded only when it is required; and a debt that was handed over was not certified as well. */
  predicate RecordOk(s: State) {
    && (s.desk.recorded ==> s.me.debt.required && !s.desk.transferred)
    && (match s.shut.cleanup
        case Unlocking(_, recovery) => recovery ==> s.me.debt.required
        case Recording(_, recovery) => recovery ==> s.me.debt.required
        case _ => true)
    && (s.desk.transferred && Receipted(s) ==> !Owes(s.procs))
  }

  lemma MovedRecord(s: State, i: nat, f: Effect)
    requires RecordOk(s) && FlagsOk(s) && (s.me.debt.required ==> f.me.debt.required)
    requires PastWait(s.shut.cleanup) ==> f.procs == s.procs
    ensures RecordOk(Do(s, i, f))
  {
  }

  lemma StarterRecord(s: State, i: nat, out: Outcome)
    requires Placed(s) && FlagsOk(s) && RecordOk(s) && i < |s.epochs|
    ensures RecordOk(Do(s, i, StarterStep(s.me, s.procs, i, s.epochs[i], out, s.shut.closer.Detached?)))
  {
    var m, c, len, free, e, ps := s.me, s.shut.closer, |s.epochs|, Vacant(s.epochs), s.epochs[i], s.procs;
    assert EpochOk(m, c, len, free, i, e, ps) && EpochShape(e);
    StarterApart(m, c, i, e, ps, out);
    if PastWait(s.shut.cleanup) { StarterQuiet(m, c, len, free, i, e, ps, out); }
    MovedRecord(s, i, StarterStep(s.me, s.procs, i, s.epochs[i], out, s.shut.closer.Detached?));
  }

  lemma WaiterRecord(s: State, i: nat, ok: bool)
    requires Placed(s) && FlagsOk(s) && RecordOk(s) && i < |s.epochs|
    ensures RecordOk(Do(s, i, WaiterStep(s.me, s.procs, s.epochs[i], ok)))
  {
    var m, c, len, free, e, ps := s.me, s.shut.closer, |s.epochs|, Vacant(s.epochs), s.epochs[i], s.procs;
    assert EpochOk(m, c, len, free, i, e, ps) && EpochShape(e);
    WaiterApart(m, i, e, ps, ok);
    if PastWait(s.shut.cleanup) { WaiterQuiet(m, c, len, free, i, e, ps, ok); }
    MovedRecord(s, i, WaiterStep(s.me, s.procs, s.epochs[i], ok));
  }

  lemma RetireRecord(s: State, i: nat)
    requires Placed(s) && FlagsOk(s) && RecordOk(s) && i < |s.epochs|
    ensures RecordOk(Do(s, i, RetireStep(s.me, s.procs, i, s.epochs[i])))
  {
    var m, c, len, free, e, ps := s.me, s.shut.closer, |s.epochs|, Vacant(s.epochs), s.epochs[i], s.procs;
    assert EpochOk(m, c, len, free, i, e, ps) && EpochShape(e);
    RetireApart(m, i, e, ps);
    if PastWait(s.shut.cleanup) { RetireQuiet(m, c, len, free, i, e, ps); }
    MovedRecord(s, i, RetireStep(s.me, s.procs, i, s.epochs[i]));
  }

  lemma StopRecord(s: State, i: nat, ok: bool)
    requires Placed(s) && FlagsOk(s) && RecordOk(s) && i < |s.epochs|
    ensures RecordOk(Do(s, i, StopStep(s.me, s.procs, s.epochs[i], ok)))
  {
    var m, c, len, free, e, ps := s.me, s.shut.closer, |s.epochs|, Vacant(s.epochs), s.epochs[i], s.procs;
    assert EpochOk(m, c, len, free, i, e, ps) && EpochShape(e);
    StopApart(m, i, e, ps, ok);
    if PastWait(s.shut.cleanup) { StopQuiet(m, c, len, free, i, e, ps, ok); }
    MovedRecord(s, i, StopStep(s.me, s.procs, s.epochs[i], ok));
  }

  lemma GoroutineRecord(s: State, a: Action)
    requires Placed(s) && FlagsOk(s) && RecordOk(s) && (a.StarterMoves? || a.WaiterMoves? || a.RetireMoves? || a.StopMoves?)
    ensures RecordOk(Step(s, a))
  {
    if a.i < |s.epochs| {
      match a
      case StarterMoves(i, out) => StarterRecord(s, i, out);
      case WaiterMoves(i, ok) => WaiterRecord(s, i, ok);
      case RetireMoves(i) => RetireRecord(s, i);
      case StopMoves(i, ok) => StopRecord(s, i, ok);
    }
  }

  lemma CleanupRecord(s: State)
    requires DebtOk(s) && RecordOk(s)
    ensures RecordOk(CleanupStep(s))
  {
    match s.shut.cleanup
    case Recording(receipt, recovery) => if receipt {} else if recovery {} else {}
    case Weighing(_) =>
    case Unlocking(_, _) =>
    case _ =>
  }

  lemma RetryRequires(s: State, out: Outcome)
    ensures var t := RetryStep(s, out);
      && (s.me.debt.required ==> t.me.debt.required) && t.desk == s.desk && (s.redo.pc.Idle? ==> t == s)
  {
  }

  lemma RetryRecord(s: State, out: Outcome)
    requires DebtOk(s) && RecordOk(s)
    ensures RecordOk(RetryStep(s, out))
  {
    RetryRequires(s, out);
  }

  lemma ProcsRecord(s: State, a: Action)
    requires RecordOk(s) && (a.ProcessDies? || a.LateWrite?)
    ensures RecordOk(Step(s, a))
  {
    if a.ProcessDies? {
      if |s.procs| > 0 { OwesKilled(s.procs, |s.procs| - 1, false); }
    } else if a.p < |s.procs| && s.procs[a.p].late {
      OwesLate(s.procs, a.p, a.ok);
    }
  }

  lemma TransferRecord(s: State)
    requires DebtOk(s) && RecordOk(s)
    ensures RecordOk(TransferStep(s))
  {
    if CanTransfer(s) && s.me.debt.applied { LastPays(s.procs); }
  }

  lemma DeskRecord(s: State, a: Action)
    requires DebtOk(s) && RecordOk(s)
    requires a.StartRecovery? || a.RecoveryMoves? || a.Publish? || a.Forget?
    ensures RecordOk(Step(s, a))
  {
    match a
    case StartRecovery => if RecoveryWanted(s) {} else {}
    case RecoveryMoves =>
      if s.redo.recovery.Wanting? { if !s.redo.pc.Idle? {} else if Owing(s.me) {} else {} }
    case Publish => if s.redo.publishing == 0 {} else {}
    case Forget =>
  }

  lemma SessionRecord(s: State, a: Action)
    requires RecordOk(s)
    requires a.StartEpoch? || a.BeginNextRound? || a.PluginReady? || a.RoundReserved? || a.Interrupt? || a.Detach?
      || a.SetTerminal? || a.MarkClosed? || a.Claim? || a.FinishClose?
    ensures RecordOk(Step(s, a))
  {
  }

  lemma StepRecord(s: State, a: Action)
    requires Placed(s) && DebtOk(s) && RecordOk(s)
    ensures RecordOk(Step(s, a))
  {
    if a.StarterMoves? || a.WaiterMoves? || a.RetireMoves? || a.StopMoves? {
      GoroutineRecord(s, a);
    } else if a.CleanupMoves? {
      CleanupRecord(s);
    } else if a.RetryMoves? {
      RetryRecord(s, a.out);
    } else if a.ProcessDies? || a.LateWrite? {
      ProcsRecord(s, a);
    } else if a.Transfer? {
      TransferRecord(s);
    } else if a.StartRecovery? || a.RecoveryMoves? || a.Publish? || a.Forget? {
      DeskRecord(s, a);
    } else {
      SessionRecord(s, a);
    }
  }

  lemma {:induction false} ReachRecord(t: Trace)
    ensures RecordOk(Reach(t))
  {
    match t
    case Born(inherits) =>
    case After(before, action) =>
      ReachRecord(before);
      ReachDebt(before);
      StepRecord(Reach(before), action);
  }

  // ----- the worth of a verdict -----

  predicate SomeTook(ps: seq<Proc>) {
    exists q :: 0 <= q < |ps| && Took(ps[q])
  }

  /** Once cleanup has waited, every Cancel that a plugin took is noted, or a retry is about to note it. */
  lemma PaymentIsNoted(s: State, p: nat)
    requires Placed(s) && Ledgers(s) && CancelsOk(s) && PastWait(s.shut.cleanup) && p < |s.procs| && Pays(s.procs[p])
    ensures s.me.debt.applied || s.redo.pc == RetryCancelled(true)
  {
    if s.procs[p].home.OfEpoch? {
      var i := s.procs[p].home.index;
      assert Ledger(s.me, s.epochs[i], i, s.procs);
      assert EpochOk(s.me, s.shut.closer, |s.epochs|, Vacant(s.epochs), i, s.epochs[i], s.procs);
      assert OpsOf(s.epochs[i]) == 0;
    }
  }

  /** Once cleanup has waited, and between two retries, something is owed exactly if a plugin took Open and no Cancel
      was applied. */
  lemma OwedExactly(s: State)
    requires Placed(s) && FlagsOk(s) && Ledgers(s) && CancelsOk(s)
    requires PastWait(s.shut.cleanup) && s.redo.pc != RetryCancelled(true) && !s.desk.transferred
    ensures Owes(s.procs) <==> !s.me.debt.applied && SomeTook(s.procs)
  {
    if s.me.debt.applied {
      LastPays(s.procs);
    } else {
      forall p | 0 <= p < |s.procs| ensures !Pays(s.procs[p]) {
        if Pays(s.procs[p]) { PaymentIsNoted(s, p); }
      }
      if SomeTook(s.procs) {
        var q :| 0 <= q < |s.procs| && Took(s.procs[q]);
        assert Unpaid(s.procs, q);
      }
    }
  }

  /** Where besides the flags say that no Cancel is outstanding, only the Hub's end of the session can bring it about
      that something is owed. */
  lemma SettledExactly(s: State)
    requires Placed(s) && DebtOk(s) && Ledgers(s) && CancelsOk(s)
    requires PastWait(s.shut.cleanup) && !Owing(s.me) && !s.desk.transferred
    ensures Owes(s.procs) <==> !s.me.debt.applied && SomeTook(s.procs)
    ensures Owes(s.procs) ==> s.me.status.terminal
  {
    NothingPendingAfterWait(s);
    OwedExactly(s);
  }
}
