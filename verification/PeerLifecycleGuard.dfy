/** The read lock of a session that has committed a plugin, followed from hand to hand. */
module PeerLifecycleGuard {
  import opened PeerLifecycle
  import opened PeerLifecycleLocks
  import opened PeerLifecyclePlaces

  /** Some epoch got its plugin through Open: from then on the session has a lock of its own. */
  predicate AnyCommitted(es: seq<Epoch>) {
    exists i :: 0 <= i < |es| && es[i].open.Committed?
  }

  predicate GuardHeld(s: State) {
    s.me.guard.Held? || s.shut.closerGuard.Held? || s.shut.cleanupGuard.Held?
  }

  predicate Owns(e: Epoch) {
    StarterOwnsOp(e.starter) || WaiterOwnsOp(e.waiter)
  }

  predicate RetryHome(r: RetryPc, ps: seq<Proc>) {
    match r
    case RetryOpened(p) => p < |ps| && ps[p].home.OfRetry?
    case RetryAborting(p, _) => p < |ps| && ps[p].home.OfRetry?
    case RetryWritten(p) => p < |ps| && ps[p].home.OfRetry?
    case _ => true
  }

  predicate GuardOk(s: State) {
    && (GuardHeld(s) ==> AnyCommitted(s.epochs))
    && (AnyCommitted(s.epochs) && !PastWait(s.shut.cleanup) ==> GuardHeld(s))
    && (forall i :: 0 <= i < |s.epochs| && Owns(s.epochs[i]) ==> s.epochs[i].local.Held? || AnyCommitted(s.epochs))
    && (forall p :: 0 <= p < |s.procs| && s.procs[p].late ==> s.procs[p].home.OfRetry?)
    && RetryHome(s.redo.pc, s.procs)
  }

  predicate GuardMoves(m: Session, e: Epoch, f: Effect) {
    && (e.open.Committed? ==> f.e.open.Committed?)
    && (m.guard.Held? ==> f.me.guard.Held?)
    && (f.me.guard.Held? && m.guard.Free? ==> f.e.open.Committed?)
    && (f.e.open.Committed? && !e.open.Committed? ==> f.me.guard.Held?)
    && (Owns(f.e) ==> f.e.local.Held? || f.me.guard.Held? || (Owns(e) && e.local.Free?))
  }

  predicate HomesKept(ps: seq<Proc>, qs: seq<Proc>) {
    && |ps| <= |qs| && (forall p :: 0 <= p < |ps| ==> qs[p].home == ps[p].home && qs[p].late == ps[p].late)
    && (forall p :: |ps| <= p < |qs| ==> !qs[p].late)
  }

  lemma StarterHomes(m: Session, c: Closer, i: nat, e: Epoch, ps: seq<Proc>, out: Outcome)
    ensures HomesKept(ps, StarterStep(m, ps, i, e, out, c.Detached?).procs)
  {
  }

  lemma StarterGuard(m: Session, c: Closer, i: nat, e: Epoch, ps: seq<Proc>, out: Outcome)
    requires PlugOk(e, i, ps) && EpochShape(e)
    ensures var f := StarterStep(m, ps, i, e, out, c.Detached?); GuardMoves(m, e, f) && HomesKept(ps, f.procs)
  {
    StarterHomes(m, c, i, e, ps, out);
    if e.starter.Opening? || e.starter.Opened? {} else if e.starter.Writing? || e.starter.Wrote? {} else {}
  }

  lemma WaiterGuard(m: Session, i: nat, e: Epoch, ps: seq<Proc>, ok: bool)
    requires PlugOk(e, i, ps) && EpochShape(e)
    ensures var f := WaiterStep(m, ps, e, ok); GuardMoves(m, e, f) && HomesKept(ps, f.procs)
  {
  }

  lemma RetireGuard(m: Session, i: nat, e: Epoch, ps: seq<Proc>)
    ensures var f := RetireStep(m, ps, i, e); GuardMoves(m, e, f) && HomesKept(ps, f.procs)
  {
  }

  lemma StopGuard(m: Session, e: Epoch, ps: seq<Proc>, ok: bool)
    ensures var f := StopStep(m, ps, e, ok); GuardMoves(m, e, f) && HomesKept(ps, f.procs)
  {
  }

  lemma MovedGuard(s: State, i: nat, f: Effect)
    requires GuardOk(s) && i < |s.epochs| && GuardMoves(s.me, s.epochs[i], f) && HomesKept(s.procs, f.procs)
    requires PastWait(s.shut.cleanup) ==> f.me.guard == s.me.guard
    ensures GuardOk(Do(s, i, f))
  {
    var t := Do(s, i, f);
    assert AnyCommitted(s.epochs) ==> AnyCommitted(t.epochs) by {
      if AnyCommitted(s.epochs) {
        var j :| 0 <= j < |s.epochs| && s.epochs[j].open.Committed?;
        assert t.epochs[j].open.Committed?;
      }
    }
    assert AnyCommitted(t.epochs) && !AnyCommitted(s.epochs) ==> f.e.open.Committed? by {
      if AnyCommitted(t.epochs) {
        var j :| 0 <= j < |t.epochs| && t.epochs[j].open.Committed?;
        assert j != i ==> s.epochs[j].open.Committed?;
      }
    }
    assert f.e.open.Committed? ==> AnyCommitted(t.epochs) by { assert t.epochs[i] == f.e; }
  }

  lemma StarterMovesGuard(s: State, i: nat, out: Outcome)
    requires Tidy(s) && EpochsOk(s) && GuardOk(s) && i < |s.epochs|
    ensures GuardOk(Do(s, i, StarterStep(s.me, s.procs, i, s.epochs[i], out, s.shut.closer.Detached?)))
  {
    assert EpochOk(s.me, s.shut.closer, |s.epochs|, Vacant(s.epochs), i, s.epochs[i], s.procs) && EpochShape(s.epochs[i]);
    StarterGuard(s.me, s.shut.closer, i, s.epochs[i], s.procs, out);
    MovedGuard(s, i, StarterStep(s.me, s.procs, i, s.epochs[i], out, s.shut.closer.Detached?));
  }

  lemma WaiterMovesGuard(s: State, i: nat, ok: bool)
    requires Tidy(s) && EpochsOk(s) && GuardOk(s) && i < |s.epochs|
    ensures GuardOk(Do(s, i, WaiterStep(s.me, s.procs, s.epochs[i], ok)))
  {
    assert EpochOk(s.me, s.shut.closer, |s.epochs|, Vacant(s.epochs), i, s.epochs[i], s.procs) && EpochShape(s.epochs[i]);
    WaiterGuard(s.me, i, s.epochs[i], s.procs, ok);
    MovedGuard(s, i, WaiterStep(s.me, s.procs, s.epochs[i], ok));
  }

  lemma RetireMovesGuard(s: State, i: nat)
    requires Tidy(s) && EpochsOk(s) && GuardOk(s) && i < |s.epochs|
    ensures GuardOk(Do(s, i, RetireStep(s.me, s.procs, i, s.epochs[i])))
  {
    assert EpochOk(s.me, s.shut.closer, |s.epochs|, Vacant(s.epochs), i, s.epochs[i], s.procs) && EpochShape(s.epochs[i]);
    RetireGuard(s.me, i, s.epochs[i], s.procs);
    MovedGuard(s, i, RetireStep(s.me, s.procs, i, s.epochs[i]));
  }

  lemma StopMovesGuard(s: State, i: nat, ok: bool)
    requires Tidy(s) && EpochsOk(s) && GuardOk(s) && i < |s.epochs|
    ensures GuardOk(Do(s, i, StopStep(s.me, s.procs, s.epochs[i], ok)))
  {
    assert EpochOk(s.me, s.shut.closer, |s.epochs|, Vacant(s.epochs), i, s.epochs[i], s.procs) && EpochShape(s.epochs[i]);
    StopGuard(s.me, s.epochs[i], s.procs, ok);
    MovedGuard(s, i, StopStep(s.me, s.procs, s.epochs[i], ok));
  }

  lemma SameCommitted(es: seq<Epoch>, fs: seq<Epoch>)
    requires |es| <= |fs| && forall i :: 0 <= i < |es| ==> fs[i].open == es[i].open
    requires forall i :: |es| <= i < |fs| ==> !fs[i].open.Committed?
    ensures AnyCommitted(es) <==> AnyCommitted(fs)
  {
    if AnyCommitted(es) {
      var i :| 0 <= i < |es| && es[i].open.Committed?;
      assert fs[i].open.Committed?;
    }
    if AnyCommitted(fs) {
      var i :| 0 <= i < |fs| && fs[i].open.Committed?;
      assert es[i].open.Committed?;
    }
  }

  /** A step that opens no process for an epoch and moves the session's lock at most from hand to hand. */
  lemma SameGuard(s: State, t: State)
    requires GuardOk(s) && |s.epochs| <= |t.epochs| && HomesKept(s.procs, t.procs) && RetryHome(t.redo.pc, t.procs)
    requires forall i :: 0 <= i < |s.epochs| ==>
      t.epochs[i].open == s.epochs[i].open && Owns(t.epochs[i]) == Owns(s.epochs[i]) && t.epochs[i].local == s.epochs[i].local
    requires forall i :: |s.epochs| <= i < |t.epochs| ==> !t.epochs[i].open.Committed? && !Owns(t.epochs[i])
    requires GuardHeld(t) ==> GuardHeld(s)
    requires PastWait(s.shut.cleanup) || GuardHeld(t) == GuardHeld(s)
    requires PastWait(s.shut.cleanup) ==> PastWait(t.shut.cleanup)
    ensures GuardOk(t)
  {
    SameCommitted(s.epochs, t.epochs);
  }

  lemma DetachGuard(s: State)
    requires Placed(s) && GuardOk(s)
    ensures GuardOk(DetachStep(s))
  {
    var t := DetachStep(s);
    if t != s {
      forall j | 0 <= j < |s.epochs| ensures t.epochs[j] == s.epochs[j] || t.epochs[j] == s.epochs[j].(stop := Queued) {
        EnqueuedAt(s.epochs, s.me.epoch, s.me.retiring, j);
      }
      EnqueuedAt(s.epochs, s.me.epoch, s.me.retiring, 0);
      SameGuard(s, t);
    }
  }

  lemma RoundsGuard(s: State, a: Action)
    requires GuardOk(s)
    ensures GuardOk(RoundAction(s, a))
  {
    SameGuard(s, RoundAction(s, a));
  }

  lemma StartedGuard(s: State)
    requires GuardOk(s)
    ensures GuardOk(Started(s)) && GuardOk(NextRound(s))
  {
    SameGuard(s, Started(s));
    SameGuard(s, NextRound(s));
  }

  lemma OtherGuard(s: State, a: Action)
    requires Shapes(s) && GuardOk(s)
    requires a.ProcessDies? || a.SetTerminal? || a.MarkClosed? || a.Claim? || a.FinishClose? || a.StartRecovery? || a.RecoveryMoves?
             || a.Publish? || a.Forget? || a.Transfer?
    ensures GuardOk(Step(s, a))
  {
    SameGuard(s, Step(s, a));
  }

  lemma LateGuard(s: State, p: nat, ok: bool)
    requires GuardOk(s)
    ensures GuardOk(LateStep(s, p, ok))
  {
  }

  lemma CleanupGuard(s: State)
    requires Shapes(s) && GuardOk(s)
    ensures GuardOk(CleanupStep(s))
  {
    SameGuard(s, CleanupStep(s));
  }

  lemma RetryGuard(s: State, out: Outcome)
    requires Shapes(s) && GuardOk(s)
    ensures GuardOk(RetryStep(s, out))
  {
    match s.redo.pc
    case RetryAborting(p, pending) => if pending {} else {}
    case _ => SameGuard(s, RetryStep(s, out));
  }

  lemma GoroutineGuard(s: State, a: Action)
    requires Tidy(s) && EpochsOk(s) && GuardOk(s) && (a.StarterMoves? || a.WaiterMoves? || a.RetireMoves? || a.StopMoves?)
    ensures GuardOk(Step(s, a))
  {
    if a.i < |s.epochs| {
      if a.StarterMoves? {
        StarterMovesGuard(s, a.i, a.out);
      } else if a.WaiterMoves? {
        WaiterMovesGuard(s, a.i, a.ok);
      } else if a.RetireMoves? {
        RetireMovesGuard(s, a.i);
      } else {
        StopMovesGuard(s, a.i, a.ok);
      }
    }
  }

  lemma SessionGuard(s: State, a: Action)
    requires Placed(s) && GuardOk(s)
    requires !a.StarterMoves? && !a.WaiterMoves? && !a.RetireMoves? && !a.StopMoves?
    ensures GuardOk(Step(s, a))
  {
    if a.StartEpoch? || a.BeginNextRound? {
      StartedGuard(s);
    } else if a.PluginReady? || a.RoundReserved? || a.Interrupt? {
      RoundsGuard(s, a);
    } else if a.Detach? {
      DetachGuard(s);
    } else if a.LateWrite? {
      LateGuard(s, a.p, a.ok);
    } else if a.CleanupMoves? {
      CleanupGuard(s);
    } else if a.RetryMoves? {
      RetryGuard(s, a.out);
    } else {
      OtherGuard(s, a);
    }
  }

  lemma StepGuard(s: State, a: Action)
    requires Placed(s) && GuardOk(s)
    ensures GuardOk(Step(s, a))
  {
    if a.StarterMoves? || a.WaiterMoves? || a.RetireMoves? || a.StopMoves? {
      GoroutineGuard(s, a);
    } else {
      SessionGuard(s, a);
    }
  }

  lemma BornGuard(inherits: bool)
    ensures GuardOk(NewSession(inherits))
  {
  }

  lemma {:induction false} ReachGuard(t: Trace)
    ensures Placed(Reach(t)) && GuardOk(Reach(t))
  {
    match t
    case Born(inherits) => BornPlaced(inherits); BornGuard(inherits);
    case After(before, action) =>
      ReachGuard(before);
      ReachPlaced(t);
      StepGuard(Reach(before), action);
  }
}
