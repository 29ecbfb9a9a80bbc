/** The cancellation debt of a session: a plugin that accepted Open must see a Cancel, its own or that
    of a process opened later. The two flags of the session keep track of it. */
module PeerLifecycleDebt {
  import opened Prelude
  import opened PeerLifecycle
  import opened PeerLifecycleLocks
  import opened PeerLifecyclePlaces

  /** The process accepted Open, or may still do so because its write is pending. */
  predicate Took(p: Proc) {
    p.accepted || p.late
  }

  /** The plugin took Open and then a Cancel: that pays for what earlier processes of the session took. */
  predicate Pays(p: Proc) {
    p.accepted && p.fate.Cancelled?
  }

  predicate Unpaid(ps: seq<Proc>, q: nat) {
    q < |ps| && Took(ps[q]) && forall j :: q <= j < |ps| ==> !Pays(ps[j])
  }

  /** Some process took Open, and neither it nor any later one took Open and was cancelled. */
  predicate Owes(ps: seq<Proc>) {
    exists q :: 0 <= q < |ps| && Unpaid(ps, q)
  }

  predicate LastPaid(ps: seq<Proc>) {
    |ps| > 0 && Pays(ps[|ps| - 1])
  }

  lemma LastPays(ps: seq<Proc>)
    requires LastPaid(ps)
    ensures !Owes(ps)
  {
    assert Pays(ps[|ps| - 1]);
  }

  /** The debt of the newest process is not in the flags yet, and will be: a section that notes it, or
      the stop of the epoch, is still to come. */
  predicate PendingAt(m: Session, e: Epoch, i: nat, p: nat) {
    e.plugin == Some(p) &&
    (e.starter.Wrote? || e.waiter.Heard? ||
     (!e.open.Unapplied? && (m.epoch == Some(i) || m.retiring == Some(i) || e.stop.Queued? || e.stop.CancelReturned?)))
  }

  predicate Pending(s: State) {
    |s.procs| > 0 &&
    match s.procs[|s.procs| - 1].home
    case OfEpoch(i) => i < |s.epochs| && PendingAt(s.me, s.epochs[i], i, |s.procs| - 1)
    case _ => false
  }

  // ----- one epoch moves -----

  predicate OwnsLast(len: nat, free: bool, i: nat, e: Epoch, ps: seq<Proc>) {
    e.plugin.Some? && (i + 1 == len || (i + 2 == len && free)) ==> e.plugin.value + 1 == |ps|
  }

  predicate Settled(m: Session, i: nat, ps: seq<Proc>, e: Epoch, f: Effect) {
    && (f.me.debt.applied ==> (m.debt.applied && |f.procs| == |ps|) || LastPaid(f.procs))
    && (m.debt.required ==> f.me.debt.required)
    && f.me.status.terminal == m.status.terminal
    && (f.me.claim.None? ==> m.claim.None? && (f.me.debt.applied ==> m.debt.applied))
    && (m.claim.Some? ==> f.me.claim == m.claim)
    && (f.e.starter.Opening? ==> !f.me.debt.applied)
    && (forall q :: 0 <= q < |ps| && q < |f.procs| ==>
          f.procs[q].late == ps[q].late && (Took(f.procs[q]) ==> Took(ps[q]) || (q + 1 == |ps| && PendingAt(f.me, f.e, i, q))))
    && (!m.status.terminal && |ps| > 0 && |f.procs| == |ps| && PendingAt(m, e, i, |ps| - 1) ==>
          PendingAt(f.me, f.e, i, |ps| - 1) || Owing(f.me) || LastPaid(f.procs))
  }

  predicate DebtHolds(m: Session, c: Closer, e: Epoch, ps: seq<Proc>) {
    && (m.debt.applied ==> LastPaid(ps) && m.claim.Some?)
    && (e.starter.Opening? ==> !m.debt.applied)
    && (m.claim.Some? ==> m.status.closed) && (!c.NotClosing? ==> m.claim.Some?)
  }

  lemma LocksSettle(m: Session, c: Closer, len: nat, free: bool, i: nat, e: Epoch, ps: seq<Proc>)
    requires EpochOk(m, c, len, free, i, e, ps) && DebtHolds(m, c, e, ps) && (e.starter.Acquire? || e.starter.Blocking? || e.starter.Locked?)
    ensures Settled(m, i, ps, e, StarterLocks(m, ps, i, e))
  {
  }

  lemma OpensSettle(m: Session, c: Closer, len: nat, free: bool, i: nat, e: Epoch, ps: seq<Proc>, out: Outcome)
    requires EpochOk(m, c, len, free, i, e, ps) && DebtHolds(m, c, e, ps) && (e.starter.Opening? || e.starter.Opened?)
    ensures Settled(m, i, ps, e, StarterOpens(m, ps, i, e, out))
  {
  }

  lemma WritesSettle(m: Session, c: Closer, len: nat, free: bool, i: nat, e: Epoch, ps: seq<Proc>, out: Outcome)
    requires EpochOk(m, c, len, free, i, e, ps) && DebtHolds(m, c, e, ps) && OwnsLast(len, free, i, e, ps)
    requires (e.starter.Writing? || e.starter.Wrote?) && EpochShape(e)
    ensures Settled(m, i, ps, e, StarterWrites(m, ps, i, e, out))
  {
  }

  lemma DiscardsSettle(m: Session, c: Closer, len: nat, free: bool, i: nat, e: Epoch, ps: seq<Proc>, out: Outcome)
    requires EpochOk(m, c, len, free, i, e, ps) && DebtHolds(m, c, e, ps) && OwnsLast(len, free, i, e, ps)
    requires e.starter.Discard? || e.starter.Discarding? || e.starter.Crediting?
    ensures Settled(m, i, ps, e, StarterDiscards(m, ps, e, out))
  {
  }

  lemma LeavesSettle(m: Session, c: Closer, i: nat, e: Epoch, ps: seq<Proc>)
    requires DebtHolds(m, c, e, ps) && !e.starter.Opening?
    ensures Settled(m, i, ps, e, StarterLeaves(m, ps, i, e, c.Detached?))
  {
  }

  lemma StarterSettles(m: Session, c: Closer, len: nat, free: bool, i: nat, e: Epoch, ps: seq<Proc>, out: Outcome)
    requires EpochOk(m, c, len, free, i, e, ps) && DebtHolds(m, c, e, ps) && OwnsLast(len, free, i, e, ps) && EpochShape(e)
    ensures Settled(m, i, ps, e, StarterStep(m, ps, i, e, out, c.Detached?))
  {
    if e.starter.Acquire? || e.starter.Blocking? || e.starter.Locked? {
      LocksSettle(m, c, len, free, i, e, ps);
    } else if e.starter.Opening? || e.starter.Opened? {
      OpensSettle(m, c, len, free, i, e, ps, out);
    } else if e.starter.Writing? || e.starter.Wrote? {
      WritesSettle(m, c, len, free, i, e, ps, out);
    } else if e.starter.Discard? || e.starter.Discarding? || e.starter.Crediting? {
      DiscardsSettle(m, c, len, free, i, e, ps, out);
    } else {
      LeavesSettle(m, c, i, e, ps);
    }
  }

  lemma WaiterSettles(m: Session, c: Closer, len: nat, free: bool, i: nat, e: Epoch, ps: seq<Proc>, ok: bool)
    requires EpochOk(m, c, len, free, i, e, ps) && DebtHolds(m, c, e, ps) && OwnsLast(len, free, i, e, ps) && EpochShape(e) && i < len
    ensures Settled(m, i, ps, e, WaiterStep(m, ps, e, ok))
  {
  }

  lemma RetireSettles(m: Session, c: Closer, len: nat, free: bool, i: nat, e: Epoch, ps: seq<Proc>)
    requires EpochOk(m, c, len, free, i, e, ps) && DebtHolds(m, c, e, ps)
    ensures Settled(m, i, ps, e, RetireStep(m, ps, i, e))
  {
  }

  lemma StopSettles(m: Session, c: Closer, len: nat, free: bool, i: nat, e: Epoch, ps: seq<Proc>, ok: bool)
    requires EpochOk(m, c, len, free, i, e, ps) && DebtHolds(m, c, e, ps) && OwnsLast(len, free, i, e, ps) && i < len
    ensures Settled(m, i, ps, e, StopStep(m, ps, e, ok))
  {
  }

  // ----- the invariant -----

  predicate PastDrop(c: Cleanup) {
    c.Dropped? || c.Finished?
  }

  predicate FlagsOk(s: State) {
    && (s.me.claim.None? ==> !s.me.debt.applied)
    && (s.me.debt.applied && !s.desk.transferred ==> LastPaid(s.procs))
    && (s.desk.transferred ==> s.me.debt == Debt(false, true) && PastDrop(s.shut.cleanup) && s.redo.recovery.Off? && s.redo.pc.Idle? && !s.desk.recorded)
    && (!s.desk.listed ==> PastDrop(s.shut.cleanup))
    && (forall i :: 0 <= i < |s.epochs| && s.epochs[i].starter.Opening? ==> !s.me.debt.applied)
  }

  predicate RetryOk(r: RetryPc, m: Session, ps: seq<Proc>) {
    && (!r.Idle? ==> Owing(m))
    && (match r
        case RetryOpened(p) => p + 1 == |ps|
        case RetryWritten(p) => p + 1 == |ps| && ps[p].accepted
        case RetryAborting(p, _) => p + 1 == |ps|
        case RetryCancelled(ok) => ok ==> LastPaid(ps)
        case _ => true)
  }

  /** Whatever is owed stands in the flags, or will. */
  predicate CoverOk(s: State) {
    !s.me.status.terminal && !s.desk.transferred && Owes(s.procs) ==> Owing(s.me) || Pending(s)
  }

  /** A cancel receipt has been published, or is certain to be. */
  predicate Receipted(s: State) {
    || s.desk.receipt || s.redo.publishing > 0 || s.redo.recovery == Result(true)
    || s.shut.cleanup == Weighing(true) || (s.shut.cleanup.Unlocking? && s.shut.cleanup.receipt)
    || (s.shut.cleanup.Recording? && s.shut.cleanup.receipt)
  }

  predicate VerdictOk(s: State) {
    && (Receipted(s) ==> PastWait(s.shut.cleanup) && !Owing(s.me) && (s.me.status.terminal || !Owes(s.procs)))
    && (match s.shut.cleanup
        case Weighing(receipt) => receipt == (Graceful(s.me) && !Owing(s.me))
        case Unlocking(receipt, recovery) =>
          receipt == (Graceful(s.me) && !Owing(s.me)) && (!s.me.status.terminal ==> recovery == Owing(s.me))
        case Recording(receipt, recovery) =>
          receipt == (Graceful(s.me) && !Owing(s.me)) && (!s.me.status.terminal ==> recovery == Owing(s.me))
        case _ => true)
  }

  predicate DebtOk(s: State) {
    FlagsOk(s) && RetryOk(s.redo.pc, s.me, s.procs) && CoverOk(s) && VerdictOk(s)
  }

  /** Once cleanup has waited, nobody is left whose section could still note a debt. */
  lemma NothingPendingAfterWait(s: State)
    requires Placed(s) && PastWait(s.shut.cleanup)
    ensures !Pending(s)
  {
    if |s.procs| > 0 && s.procs[|s.procs| - 1].home.OfEpoch? && s.procs[|s.procs| - 1].home.index < |s.epochs| {
      var i := s.procs[|s.procs| - 1].home.index;
      assert EpochOk(s.me, s.shut.closer, |s.epochs|, Vacant(s.epochs), i, s.epochs[i], s.procs);
    }
  }

  // ----- a goroutine of one epoch -----

  predicate Quiet(m: Session, ps: seq<Proc>, f: Effect) {
    f.procs == ps && f.me.debt == m.debt && f.me.status == m.status && f.me.claim == m.claim && !f.e.starter.Opening?
  }

  /** After cleanup has waited, the goroutines that are left touch neither processes nor flags. */
  lemma StarterQuiet(m: Session, c: Closer, len: nat, free: bool, i: nat, e: Epoch, ps: seq<Proc>, out: Outcome)
    requires EpochOk(m, c, len, free, i, e, ps) && EpochShape(e)
    requires OpsOf(e) == 0 && m.status.closed && c.Detached?
    ensures var f := StarterStep(m, ps, i, e, out, c.Detached?); Quiet(m, ps, f)
  {
  }

  lemma WaiterQuiet(m: Session, c: Closer, len: nat, free: bool, i: nat, e: Epoch, ps: seq<Proc>, ok: bool)
    requires EpochOk(m, c, len, free, i, e, ps) && EpochShape(e)
    requires OpsOf(e) == 0 && m.status.closed && c.Detached?
    ensures var f := WaiterStep(m, ps, e, ok); Quiet(m, ps, f)
  {
  }

  lemma RetireQuiet(m: Session, c: Closer, len: nat, free: bool, i: nat, e: Epoch, ps: seq<Proc>)
    requires EpochOk(m, c, len, free, i, e, ps) && EpochShape(e)
    requires OpsOf(e) == 0 && m.status.closed && c.Detached?
    ensures var f := RetireStep(m, ps, i, e); Quiet(m, ps, f)
  {
  }

  lemma StopQuiet(m: Session, c: Closer, len: nat, free: bool, i: nat, e: Epoch, ps: seq<Proc>, ok: bool)
    requires EpochOk(m, c, len, free, i, e, ps) && EpochShape(e)
    requires OpsOf(e) == 0 && m.status.closed && c.Detached?
    ensures var f := StopStep(m, ps, e, ok); Quiet(m, ps, f)
  {
  }

  /** Epochs before the newest one are settled, unless the newest was never started. */
  lemma StarterPast(m: Session, c: Closer, len: nat, free: bool, i: nat, e: Epoch, ps: seq<Proc>, out: Outcome)
    requires EpochOk(m, c, len, free, i, e, ps) && EpochShape(e)
    requires i + 1 < len && !free
    ensures var f := StarterStep(m, ps, i, e, out, c.Detached?); f.me.debt == m.debt
  {
  }

  lemma WaiterPast(m: Session, c: Closer, len: nat, free: bool, i: nat, e: Epoch, ps: seq<Proc>, ok: bool)
    requires EpochOk(m, c, len, free, i, e, ps) && EpochShape(e)
    requires i + 1 < len && !free
    ensures var f := WaiterStep(m, ps, e, ok); f.me.debt == m.debt
  {
  }

  lemma RetirePast(m: Session, c: Closer, len: nat, free: bool, i: nat, e: Epoch, ps: seq<Proc>)
    requires EpochOk(m, c, len, free, i, e, ps) && EpochShape(e)
    requires i + 1 < len && !free
    ensures var f := RetireStep(m, ps, i, e); f.me.debt == m.debt
  {
  }

  lemma StopPast(m: Session, c: Closer, len: nat, free: bool, i: nat, e: Epoch, ps: seq<Proc>, ok: bool)
    requires EpochOk(m, c, len, free, i, e, ps) && EpochShape(e)
    requires i + 1 < len && !free
    ensures var f := StopStep(m, ps, e, ok); f.me.debt == m.debt
  {
  }

  lemma QuietDebt(s: State, i: nat, f: Effect)
    requires Placed(s) && DebtOk(s) && i < |s.epochs| && PastWait(s.shut.cleanup)
    requires Quiet(s.me, s.procs, f)
    ensures DebtOk(Do(s, i, f))
  {
    NothingPendingAfterWait(s);
  }

  /** A launch finds nothing pending: the epochs before it are settled. */
  lemma LaunchFindsNothing(s: State, i: nat)
    requires Placed(s) && i < |s.epochs| && s.epochs[i].starter.Opening?
    ensures !Pending(s)
  {
    assert EpochOk(s.me, s.shut.closer, |s.epochs|, Vacant(s.epochs), i, s.epochs[i], s.procs);
    if |s.procs| > 0 && s.procs[|s.procs| - 1].home.OfEpoch? && s.procs[|s.procs| - 1].home.index < |s.epochs| {
      var j := s.procs[|s.procs| - 1].home.index;
      assert EpochOk(s.me, s.shut.closer, |s.epochs|, Vacant(s.epochs), j, s.epochs[j], s.procs);
      assert EpochShape(s.epochs[j]);
    }
  }

  lemma MovedOwes(ps: seq<Proc>, qs: seq<Proc>, q: nat)
    requires |ps| <= |qs| && Grown(ps, qs) && q < |ps| && Unpaid(qs, q) && Took(ps[q])
    ensures Owes(ps)
  {
    assert Unpaid(ps, q);
  }

  predicate SameOrLaunch(i: nat, ps: seq<Proc>, e: Epoch, f: Effect) {
    |f.procs| == |ps| || Launches(i, ps, e, f)
  }

  lemma OwedBefore(m: Session, i: nat, ps: seq<Proc>, e: Epoch, f: Effect)
    requires Settled(m, i, ps, e, f) && Grown(ps, f.procs) && SameOrLaunch(i, ps, e, f)
    ensures Owes(f.procs) ==> Owes(ps) || (|ps| > 0 && PendingAt(f.me, f.e, i, |ps| - 1))
  {
    if Owes(f.procs) {
      var q :| 0 <= q < |f.procs| && Unpaid(f.procs, q);
      assert q < |ps|;
      if Took(ps[q]) { MovedOwes(ps, f.procs, q); }
    }
  }

  lemma PendingMoves(s: State, i: nat, f: Effect)
    requires i < |s.epochs| && !s.me.status.terminal && (s.epochs[i].starter.Opening? ==> !Pending(s))
    requires Settled(s.me, i, s.procs, s.epochs[i], f) && Grown(s.procs, f.procs) && SameOrLaunch(i, s.procs, s.epochs[i], f)
    requires PlaceMoves(s.me, f.me, i)
    ensures Pending(s) ==> Pending(Do(s, i, f)) || Owing(f.me) || LastPaid(f.procs)
  {
    if Pending(s) {
      var j := s.procs[|s.procs| - 1].home.index;
      assert f.procs[|s.procs| - 1].home == OfEpoch(j);
      assert j != i ==> Do(s, i, f).epochs[j] == s.epochs[j];
    }
  }

  lemma BecomesPending(s: State, i: nat, f: Effect)
    requires i < |s.epochs| && |s.procs| > 0 && PendingAt(f.me, f.e, i, |s.procs| - 1) && PlugOk(f.e, i, f.procs)
    requires SameOrLaunch(i, s.procs, s.epochs[i], f)
    ensures Pending(Do(s, i, f))
  {
  }

  lemma MovedCover(s: State, i: nat, f: Effect)
    requires CoverOk(s) && i < |s.epochs| && (s.epochs[i].starter.Opening? ==> !Pending(s))
    requires PlugOk(f.e, i, f.procs) && Grown(s.procs, f.procs) && PlaceMoves(s.me, f.me, i)
    requires SameOrLaunch(i, s.procs, s.epochs[i], f) && Settled(s.me, i, s.procs, s.epochs[i], f)
    ensures CoverOk(Do(s, i, f))
  {
    if !f.me.status.terminal && Owes(f.procs) {
      if LastPaid(f.procs) { LastPays(f.procs); }
      OwedBefore(s.me, i, s.procs, s.epochs[i], f);
      PendingMoves(s, i, f);
      if !Owes(s.procs) { BecomesPending(s, i, f); }
    }
  }

  lemma MovedDebt(s: State, i: nat, f: Effect)
    requires Placed(s) && DebtOk(s) && i < |s.epochs| && !PastWait(s.shut.cleanup)
    requires Moves(s.me, s.shut.closer, |s.epochs|, Vacant(s.epochs), i, s.procs, s.epochs[i], f)
    requires SameOrLaunch(i, s.procs, s.epochs[i], f) && Settled(s.me, i, s.procs, s.epochs[i], f)
    requires forall j :: 0 <= j < |s.epochs| && j != i && s.epochs[j].starter.Opening? ==> !f.me.debt.applied
    ensures DebtOk(Do(s, i, f))
  {
    if s.epochs[i].starter.Opening? { LaunchFindsNothing(s, i); }
    MovedCover(s, i, f);
    MovedFlags(s, i, f);
  }

  lemma MovedFlags(s: State, i: nat, f: Effect)
    requires Shapes(s) && FlagsOk(s) && RetryOk(s.redo.pc, s.me, s.procs) && VerdictOk(s) && i < |s.epochs| && !PastWait(s.shut.cleanup)
    requires Settled(s.me, i, s.procs, s.epochs[i], f) && Grown(s.procs, f.procs)
    requires forall j :: 0 <= j < |s.epochs| && j != i && s.epochs[j].starter.Opening? ==> !f.me.debt.applied
    ensures var t := Do(s, i, f); FlagsOk(t) && RetryOk(t.redo.pc, t.me, t.procs) && VerdictOk(t)
  {
  }

  lemma DebtHoldsAt(s: State, i: nat)
    requires Placed(s) && DebtOk(s) && i < |s.epochs| && !PastWait(s.shut.cleanup)
    ensures DebtHolds(s.me, s.shut.closer, s.epochs[i], s.procs)
    ensures OwnsLast(|s.epochs|, Vacant(s.epochs), i, s.epochs[i], s.procs)
  {
    if s.epochs[i].plugin.Some? && (i + 1 == |s.epochs| || (i + 2 == |s.epochs| && Vacant(s.epochs))) { OwnsNewest(s, i); }
  }

  lemma Goes(s: State, i: nat, f: Effect)
    requires Placed(s) && DebtOk(s) && i < |s.epochs|
    requires Moves(s.me, s.shut.closer, |s.epochs|, Vacant(s.epochs), i, s.procs, s.epochs[i], f)
    requires SameOrLaunch(i, s.procs, s.epochs[i], f)
    requires PastWait(s.shut.cleanup) ==> Quiet(s.me, s.procs, f)
    requires !PastWait(s.shut.cleanup) ==> Settled(s.me, i, s.procs, s.epochs[i], f)
    requires i + 1 < |s.epochs| && !Vacant(s.epochs) ==> f.me.debt == s.me.debt
    ensures DebtOk(Do(s, i, f))
  {
    if PastWait(s.shut.cleanup) {
      QuietDebt(s, i, f);
    } else {
      forall j | 0 <= j < |s.epochs| && j != i && s.epochs[j].starter.Opening? ensures !f.me.debt.applied {
        assert EpochOk(s.me, s.shut.closer, |s.epochs|, Vacant(s.epochs), j, s.epochs[j], s.procs);
      }
      MovedDebt(s, i, f);
    }
  }

  lemma StarterDebt(s: State, i: nat, out: Outcome)
    requires Placed(s) && DebtOk(s) && i < |s.epochs|
    ensures DebtOk(Do(s, i, StarterStep(s.me, s.procs, i, s.epochs[i], out, s.shut.closer.Detached?)))
  {
    var m, c, len, free, e, ps := s.me, s.shut.closer, |s.epochs|, Vacant(s.epochs), s.epochs[i], s.procs;
    assert EpochOk(m, c, len, free, i, e, ps) && EpochShape(e);
    StarterFacts(m, c, len, free, i, e, ps, out, if |ps| > 0 then |ps| - 1 else 0);
    if PastWait(s.shut.cleanup) {
      StarterQuiet(m, c, len, free, i, e, ps, out);
    } else {
      DebtHoldsAt(s, i);
      StarterSettles(m, c, len, free, i, e, ps, out);
    }
    if i + 1 < len && !free { StarterPast(m, c, len, free, i, e, ps, out); }
    Goes(s, i, StarterStep(s.me, s.procs, i, s.epochs[i], out, s.shut.closer.Detached?));
  }

  lemma WaiterDebt(s: State, i: nat, ok: bool)
    requires Placed(s) && DebtOk(s) && i < |s.epochs|
    ensures DebtOk(Do(s, i, WaiterStep(s.me, s.procs, s.epochs[i], ok)))
  {
    var m, c, len, free, e, ps := s.me, s.shut.closer, |s.epochs|, Vacant(s.epochs), s.epochs[i], s.procs;
    assert EpochOk(m, c, len, free, i, e, ps) && EpochShape(e);
    WaiterFacts(m, c, len, free, i, e, ps, ok, if |ps| > 0 then |ps| - 1 else 0);
    if PastWait(s.shut.cleanup) {
      WaiterQuiet(m, c, len, free, i, e, ps, ok);
    } else {
      DebtHoldsAt(s, i);
      WaiterSettles(m, c, len, free, i, e, ps, ok);
    }
    if i + 1 < len && !free { WaiterPast(m, c, len, free, i, e, ps, ok); }
    Goes(s, i, WaiterStep(s.me, s.procs, s.epochs[i], ok));
  }

  lemma RetireDebt(s: State, i: nat)
    requires Placed(s) && DebtOk(s) && i < |s.epochs|
    ensures DebtOk(Do(s, i, RetireStep(s.me, s.procs, i, s.epochs[i])))
  {
    var m, c, len, free, e, ps := s.me, s.shut.closer, |s.epochs|, Vacant(s.epochs), s.epochs[i], s.procs;
    assert EpochOk(m, c, len, free, i, e, ps) && EpochShape(e);
    RetireFacts(m, c, len, free, i, e, ps, if |ps| > 0 then |ps| - 1 else 0);
    if PastWait(s.shut.cleanup) {
      RetireQuiet(m, c, len, free, i, e, ps);
    } else {
      DebtHoldsAt(s, i);
      RetireSettles(m, c, len, free, i, e, ps);
    }
    if i + 1 < len && !free { RetirePast(m, c, len, free, i, e, ps); }
    Goes(s, i, RetireStep(s.me, s.procs, i, s.epochs[i]));
  }

  lemma StopDebt(s: State, i: nat, ok: bool)
    requires Placed(s) && DebtOk(s) && i < |s.epochs|
    ensures DebtOk(Do(s, i, StopStep(s.me, s.procs, s.epochs[i], ok)))
  {
    var m, c, len, free, e, ps := s.me, s.shut.closer, |s.epochs|, Vacant(s.epochs), s.epochs[i], s.procs;
    assert EpochOk(m, c, len, free, i, e, ps) && EpochShape(e);
    StopFacts(m, c, len, free, i, e, ps, ok, if |ps| > 0 then |ps| - 1 else 0);
    if PastWait(s.shut.cleanup) {
      StopQuiet(m, c, len, free, i, e, ps, ok);
    } else {
      DebtHoldsAt(s, i);
      StopSettles(m, c, len, free, i, e, ps, ok);
    }
    if i + 1 < len && !free { StopPast(m, c, len, free, i, e, ps, ok); }
    Goes(s, i, StopStep(s.me, s.procs, s.epochs[i], ok));
  }

  // ----- the other actions -----

  lemma OwesKilled(ps: seq<Proc>, p: nat, cancelled: bool)
    ensures Owes(Killed(ps, p, cancelled)) ==> Owes(ps)
    ensures LastPaid(ps) ==> LastPaid(Killed(ps, p, cancelled))
  {
    var qs := Killed(ps, p, cancelled);
    if Owes(qs) {
      var q :| 0 <= q < |qs| && Unpaid(qs, q);
      assert forall j :: q <= j < |ps| ==> (Pays(ps[j]) ==> Pays(qs[j]));
      assert Unpaid(ps, q);
    }
  }

  lemma OwesLaunched(ps: seq<Proc>, home: Home)
    ensures Owes(Launched(ps, home)) ==> Owes(ps)
  {
    var qs := Launched(ps, home);
    if Owes(qs) {
      var q :| 0 <= q < |qs| && Unpaid(qs, q);
      assert q < |ps| && forall j :: q <= j < |ps| ==> qs[j] == ps[j];
      assert Unpaid(ps, q);
    }
  }

  lemma OwesLate(ps: seq<Proc>, p: nat, ok: bool)
    requires p < |ps| && ps[p].late
    ensures var qs := ps[p := ps[p].(late := false, accepted := ps[p].accepted || ok)]; Owes(qs) ==> Owes(ps)
  {
    var qs := ps[p := ps[p].(late := false, accepted := ps[p].accepted || ok)];
    if Owes(qs) {
      var q :| 0 <= q < |qs| && Unpaid(qs, q);
      assert forall j :: q <= j < |ps| ==> (Pays(ps[j]) ==> Pays(qs[j]));
      assert Unpaid(ps, q);
    }
  }

  lemma PendingPlace(s: State)
    requires EpochsOk(s)
    ensures Pending(s) ==>
      var i := s.procs[|s.procs| - 1].home.index;
      i < |s.epochs| && EpochOk(s.me, s.shut.closer, |s.epochs|, Vacant(s.epochs), i, s.epochs[i], s.procs)
  {
  }

  lemma StartedDebt(s: State)
    requires EpochsOk(s) && DebtOk(s)
    ensures DebtOk(Started(s))
  {
    var t := Started(s);
    if t != s {
      assert forall i :: 0 <= i < |s.epochs| ==> t.epochs[i] == s.epochs[i];
      PendingPlace(s);
    }
  }

  lemma NextRoundDebt(s: State)
    requires EpochsOk(s) && SessionShape(s.me, s.shut.closer, |s.epochs|) && DebtOk(s)
    ensures DebtOk(NextRound(s))
  {
    RetiringPlace(s);
    if NextRound(s) != s { RetiredDebt(s, NextRound(s)); }
  }

  lemma RetiredDebt(s: State, t: State)
    requires DebtOk(s) && |s.epochs| > 0 && t.epochs == s.epochs[|s.epochs| - 1 := s.epochs[|s.epochs| - 1].(retire := Claimed)] + [PLACEHOLDER]
    requires s.me.retiring.None? && t.me.retiring == Some(|s.epochs| - 1) && s.me.epoch == Some(|s.epochs| - 1)
    requires t.procs == s.procs && t.me.debt == s.me.debt && t.me.status == s.me.status && t.me.claim == s.me.claim
    requires t.shut == s.shut && t.redo == s.redo && t.desk == s.desk
    ensures DebtOk(t)
  {
    if Pending(s) {
      var j := s.procs[|s.procs| - 1].home.index;
      assert PendingAt(t.me, t.epochs[j], j, |s.procs| - 1);
    }
  }

  lemma DetachDebt(s: State)
    requires Placed(s) && DebtOk(s)
    ensures DebtOk(DetachStep(s))
  {
    var t := DetachStep(s);
    if t != s {
      forall j | 0 <= j < |s.epochs|
        ensures t.epochs[j] == if s.me.epoch == Some(j) || s.me.retiring == Some(j) then s.epochs[j].(stop := Queued) else s.epochs[j]
      {
        EnqueuedAt(s.epochs, s.me.epoch, s.me.retiring, j);
      }
      DetachedDebt(s, t);
    }
  }

  lemma DetachedDebt(s: State, t: State)
    requires DebtOk(s) && |t.epochs| == |s.epochs| && t.procs == s.procs && t.redo == s.redo && t.desk == s.desk
    requires t.shut.cleanup == s.shut.cleanup && t.me.debt == s.me.debt && t.me.status == s.me.status && t.me.claim == s.me.claim
    requires forall j :: 0 <= j < |s.epochs| ==>
      t.epochs[j] == if s.me.epoch == Some(j) || s.me.retiring == Some(j) then s.epochs[j].(stop := Queued) else s.epochs[j]
    ensures DebtOk(t)
  {
    if Pending(s) {
      var j := s.procs[|s.procs| - 1].home.index;
      assert PendingAt(t.me, t.epochs[j], j, |s.procs| - 1);
    }
  }

  lemma RoundsDebt(s: State, a: Action)
    requires DebtOk(s)
    ensures DebtOk(RoundAction(s, a))
  {
    var t := RoundAction(s, a);
    if HasCurrent(s) {
      var i := s.me.epoch.value;
      assert forall j :: 0 <= j < |s.epochs| && j != i ==> t.epochs[j] == s.epochs[j];
      if Pending(s) {
        var j := s.procs[|s.procs| - 1].home.index;
        assert PendingAt(t.me, t.epochs[j], j, |s.procs| - 1);
      }
    }
  }

  /** A step that leaves the epochs alone, and neither forgives nor adds to what is owed. */
  lemma SameEpochsCover(s: State, t: State)
    requires CoverOk(s) && t.epochs == s.epochs && t.me.epoch == s.me.epoch && t.me.retiring == s.me.retiring
    requires s.me.status.terminal ==> t.me.status.terminal
    requires s.desk.transferred ==> t.desk.transferred
    requires Owes(t.procs) ==> Owes(s.procs) || Owing(t.me) || t.me.status.terminal
    requires Owing(s.me) ==> Owing(t.me) || !Owes(t.procs) || t.desk.transferred
    requires Pending(s) ==> |t.procs| == |s.procs| && t.procs[|s.procs| - 1].home == s.procs[|s.procs| - 1].home
    ensures CoverOk(t)
  {
  }

  lemma CleanupVerdict(s: State)
    requires DebtOk(s) && Shapes(s) && (PastWait(s.shut.cleanup) ==> !Pending(s))
    ensures VerdictOk(CleanupStep(s))
  {
    match s.shut.cleanup
    case Awaiting => if s.me.ops != 0 {} else if Graceful(s.me) {} else {}
    case WantsRetry => if !s.redo.pc.Idle? {} else if Owing(s.me) {} else {}
    case Recording(receipt, recovery) => if receipt {} else if recovery {} else {}
    case _ =>
  }

  lemma CleanupDebt(s: State)
    requires Placed(s) && DebtOk(s)
    ensures DebtOk(CleanupStep(s))
  {
    SameEpochsCover(s, CleanupStep(s));
    if PastWait(s.shut.cleanup) { NothingPendingAfterWait(s); }
    CleanupVerdict(s);
  }

  lemma RetryFlags(s: State, out: Outcome)
    requires Placed(s) && DebtOk(s) && !s.redo.pc.Idle?
    ensures var t := RetryStep(s, out);
            && FlagsOk(t) && RetryOk(t.redo.pc, t.me, t.procs)
            && (Owes(t.procs) ==> Owes(s.procs) || Owing(t.me))
            && (Owing(s.me) ==> Owing(t.me) || !Owes(t.procs))
            && (t.redo.recovery == Result(true) ==> s.redo.recovery == Result(true) || LastPaid(t.procs))
            && t.desk == s.desk && t.redo.publishing == s.redo.publishing
            && (t.shut.cleanup == s.shut.cleanup || t.shut.cleanup.Judging?)
  {
    match s.redo.pc
    case Guarded => if out.Good? { OwesLaunched(s.procs, OfRetry); } else {}
    case RetryOpened(_) => if out.Good? {} else {}
    case RetryAborting(p, pending) => OwesKilled(s.procs, p, false); if pending {} else {}
    case RetryWritten(p) => OwesKilled(s.procs, p, out.Good?);
    case RetryCancelled(ok) => if ok { LastPays(s.procs); } else {}
    case _ =>
  }

  lemma RetryDebt(s: State, out: Outcome)
    requires Placed(s) && DebtOk(s)
    ensures DebtOk(RetryStep(s, out))
  {
    if !s.redo.pc.Idle? {
      NothingPendingAfterWait(s);
      RetryFlags(s, out);
      var t := RetryStep(s, out);
      if LastPaid(t.procs) { LastPays(t.procs); }
      assert t.epochs == s.epochs && t.me.status == s.me.status && t.me.epoch == s.me.epoch && t.me.retiring == s.me.retiring
             && t.me.claim == s.me.claim by { RetryKeepsSession(s, out); }
      SameEpochsCover(s, t);
      assert VerdictOk(t) by {
        assert Receipted(s) ==> !Owing(s.me);
        assert !Receipted(s);
      }
    }
  }

  lemma RetryKeepsSession(s: State, out: Outcome)
    ensures var t := RetryStep(s, out);
            && t.epochs == s.epochs && t.me.status == s.me.status && t.me.epoch == s.me.epoch && t.me.retiring == s.me.retiring
            && t.me.claim == s.me.claim
  {
  }

  lemma LateDebt(s: State, p: nat, ok: bool)
    requires RedoShape(s.redo, s.shut.cleanup, s.procs) && DebtOk(s)
    ensures DebtOk(LateStep(s, p, ok))
  {
    var t := LateStep(s, p, ok);
    if t != s {
      OwesLate(s.procs, p, ok);
      SameEpochsCover(s, t);
    }
  }

  lemma DiesDebt(s: State)
    requires RedoShape(s.redo, s.shut.cleanup, s.procs) && DebtOk(s) && |s.procs| > 0
    ensures DebtOk(s.(procs := Killed(s.procs, |s.procs| - 1, false)))
  {
    var t := s.(procs := Killed(s.procs, |s.procs| - 1, false));
    OwesKilled(s.procs, |s.procs| - 1, false);
    SameEpochsCover(s, t);
  }

  lemma RecoveryDebt(s: State, a: Action)
    requires Placed(s) && DebtOk(s) && (a.StartRecovery? || a.RecoveryMoves?)
    ensures DebtOk(Step(s, a))
  {
    SameEpochsCover(s, Step(s, a));
    if PastWait(s.shut.cleanup) { NothingPendingAfterWait(s); }
    if a.StartRecovery? {
      if RecoveryWanted(s) {} else {}
    } else if s.redo.recovery.Wanting? {
      if !s.redo.pc.Idle? {} else if Owing(s.me) {} else {}
    } else {
    }
  }

  lemma DeskDebt(s: State, a: Action)
    requires DebtOk(s) && (a.Publish? || a.Forget?)
    ensures DebtOk(Step(s, a))
  {
    SameEpochsCover(s, Step(s, a));
    if a.Publish? && s.redo.publishing == 0 {} else {}
  }

  lemma TransferDebt(s: State)
    requires Placed(s) && DebtOk(s)
    ensures DebtOk(TransferStep(s))
  {
    SameEpochsCover(s, TransferStep(s));
    if CanTransfer(s) {} else {}
  }

  lemma StatusDebt(s: State, n: Session)
    requires DebtOk(s) && n == s.me.(status := n.status, claim := n.claim)
    requires (s.me.status.terminal ==> n.status.terminal) && (n.claim.None? ==> s.me.claim.None?)
    requires PastWait(s.shut.cleanup) ==> n.claim == s.me.claim
    ensures DebtOk(s.(me := n))
  {
    SameEpochsCover(s, s.(me := n));
  }

  lemma FinishDebt(s: State)
    requires DebtOk(s) && (s.shut.cleanup.NoCleanup? <==> !s.shut.closer.Detached?)
    ensures DebtOk(FinishStep(s))
  {
    SameEpochsCover(s, FinishStep(s));
  }

  lemma ClosingDebt(s: State, a: Action)
    requires Shapes(s) && DebtOk(s) && (a.SetTerminal? || a.MarkClosed? || a.Claim? || a.FinishClose?)
    ensures DebtOk(Step(s, a))
  {
    match a
    case SetTerminal => StatusDebt(s, s.me.(status := s.me.status.(terminal := true)));
    case MarkClosed => StatusDebt(s, s.me.(status := s.me.status.(closed := true)));
    case Claim(sendCancel) => StatusDebt(s, ClaimedBy(s.me, sendCancel));
    case FinishClose => FinishDebt(s);
  }

  lemma StartDebt(s: State, a: Action)
    requires Placed(s) && DebtOk(s) && (a.StarterMoves? || a.WaiterMoves?)
    ensures DebtOk(Step(s, a))
  {
    match a
    case StarterMoves(i, out) => if i < |s.epochs| { StarterDebt(s, i, out); }
    case WaiterMoves(i, ok) => if i < |s.epochs| { WaiterDebt(s, i, ok); }
  }

  lemma EndDebt(s: State, a: Action)
    requires Placed(s) && DebtOk(s) && (a.RetireMoves? || a.StopMoves?)
    ensures DebtOk(Step(s, a))
  {
    match a
    case RetireMoves(i) => if i < |s.epochs| { RetireDebt(s, i); }
    case StopMoves(i, ok) => if i < |s.epochs| { StopDebt(s, i, ok); }
  }

  lemma StartEpochDebt(s: State)
    requires EpochsOk(s) && DebtOk(s)
    ensures DebtOk(Step(s, StartEpoch))
  {
    StartedDebt(s);
  }

  lemma BeginNextRoundDebt(s: State)
    requires EpochsOk(s) && SessionShape(s.me, s.shut.closer, |s.epochs|) && DebtOk(s)
    ensures DebtOk(Step(s, BeginNextRound))
  {
    NextRoundDebt(s);
  }

  lemma SessionDebt(s: State, a: Action)
    requires Placed(s) && DebtOk(s) && (a.Detach? || a.PluginReady? || a.RoundReserved? || a.Interrupt?)
    ensures DebtOk(Step(s, a))
  {
    if a.Detach? { DetachDebt(s); } else { RoundsDebt(s, a); }
  }

  lemma StepDebt(s: State, a: Action)
    requires Placed(s) && DebtOk(s)
    ensures DebtOk(Step(s, a))
  {
    if a.StarterMoves? || a.WaiterMoves? {
      StartDebt(s, a);
    } else if a.RetireMoves? || a.StopMoves? {
      EndDebt(s, a);
    } else if a.StartEpoch? {
      StartEpochDebt(s);
    } else if a.BeginNextRound? {
      BeginNextRoundDebt(s);
    } else if a.Detach? || a.PluginReady? || a.RoundReserved? || a.Interrupt? {
      SessionDebt(s, a);
    } else if a.ProcessDies? {
      if |s.procs| > 0 { DiesDebt(s); }
    } else if a.CleanupMoves? {
      CleanupDebt(s);
    } else if a.RetryMoves? {
      RetryDebt(s, a.out);
    } else if a.LateWrite? {
      LateDebt(s, a.p, a.ok);
    } else if a.StartRecovery? || a.RecoveryMoves? {
      RecoveryDebt(s, a);
    } else if a.Publish? || a.Forget? {
      DeskDebt(s, a);
    } else if a.Transfer? {
      TransferDebt(s);
    } else {
      ClosingDebt(s, a);
    }
  }

  lemma BornDebt(inherits: bool)
    ensures DebtOk(NewSession(inherits))
  {
  }

  lemma {:induction false} ReachDebt(t: Trace)
    ensures Placed(Reach(t)) && DebtOk(Reach(t))
  {
    match t
    case Born(inherits) => BornPlaced(inherits); BornDebt(inherits);
    case After(before, action) =>
      ReachDebt(before);
      ReachPlaced(t);
      StepDebt(Reach(before), action);
  }
}
