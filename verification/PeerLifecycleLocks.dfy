/** Read locks and plugin operations of a session: every one that is taken is accounted for by
    exactly one holder, and is given back exactly once. */
module PeerLifecycleLocks {
  import opened Prelude
  import opened PeerLifecycle

  function Bit(b: bool): nat {
    if b then 1 else 0
  }

  function One(h: Hold): nat {
    if h.Held? then 1 else 0
  }

  predicate StarterOwnsOp(pc: Starter) {
    match pc
    case Unstarted => false
    case Acquire => false
    case Blocking => false
    case Locked => false
    case Failing(owns) => owns
    case AwaitingClose(owns) => owns
    case Leaving(owns) => owns
    case Gone => false
    case _ => true
  }

  predicate WaiterOwnsOp(pc: Waiter) {
    pc.Waiting? || pc.Heard? || pc.Returning?
  }

  predicate RetireOwnsOp(pc: Retire) {
    pc.Claimed? || pc.Deciding? || pc.Aborting? || pc.Done?
  }

  function OpsOf(e: Epoch): nat {
    Bit(StarterOwnsOp(e.starter)) + Bit(WaiterOwnsOp(e.waiter)) + Bit(RetireOwnsOp(e.retire))
  }

  function OpsUpTo(es: seq<Epoch>, n: nat): nat
    requires n <= |es|
  {
    if n == 0 then 0 else OpsUpTo(es, n - 1) + OpsOf(es[n - 1])
  }

  function LocksUpTo(es: seq<Epoch>, n: nat): nat
    requires n <= |es|
  {
    if n == 0 then 0 else LocksUpTo(es, n - 1) + One(es[n - 1].local)
  }

  function LateUpTo(ps: seq<Proc>, n: nat): nat
    requires n <= |ps|
  {
    if n == 0 then 0 else LateUpTo(ps, n - 1) + Bit(ps[n - 1].late)
  }

  function OpsHeld(es: seq<Epoch>): nat {
    OpsUpTo(es, |es|)
  }

  function LocksHeld(es: seq<Epoch>): nat {
    LocksUpTo(es, |es|)
  }

  function LateHeld(ps: seq<Proc>): nat {
    LateUpTo(ps, |ps|)
  }

  lemma {:induction false} SameUpTo(es: seq<Epoch>, fs: seq<Epoch>, n: nat)
    requires n <= |es| && n <= |fs| && es[..n] == fs[..n]
    ensures OpsUpTo(es, n) == OpsUpTo(fs, n) && LocksUpTo(es, n) == LocksUpTo(fs, n)
  {
    if n > 0 {
      assert es[n - 1] == es[..n][n - 1] == fs[..n][n - 1] == fs[n - 1];
      assert es[..n - 1] == es[..n][..n - 1] && fs[..n - 1] == fs[..n][..n - 1];
      SameUpTo(es, fs, n - 1);
    }
  }

  lemma {:induction false} UpdatedUpTo(es: seq<Epoch>, i: nat, e: Epoch, n: nat)
    requires i < n <= |es|
    ensures OpsUpTo(es[i := e], n) == OpsUpTo(es, n) - OpsOf(es[i]) + OpsOf(e)
    ensures LocksUpTo(es[i := e], n) == LocksUpTo(es, n) - One(es[i].local) + One(e.local)
  {
    if i == n - 1 {
      assert es[i := e][..i] == es[..i];
      SameUpTo(es[i := e], es, i);
    } else {
      UpdatedUpTo(es, i, e, n - 1);
    }
  }

  lemma EpochSums(es: seq<Epoch>, i: nat, e: Epoch)
    requires i < |es|
    ensures OpsHeld(es[i := e]) == OpsHeld(es) - OpsOf(es[i]) + OpsOf(e)
    ensures LocksHeld(es[i := e]) == LocksHeld(es) - One(es[i].local) + One(e.local)
  {
    UpdatedUpTo(es, i, e, |es|);
  }

  lemma EpochSumsMore(es: seq<Epoch>, e: Epoch)
    ensures OpsHeld(es + [e]) == OpsHeld(es) + OpsOf(e)
    ensures LocksHeld(es + [e]) == LocksHeld(es) + One(e.local)
  {
    assert (es + [e])[..|es|] == es == es[..|es|];
    SameUpTo(es + [e], es, |es|);
  }

  lemma {:induction false} SameLateUpTo(ps: seq<Proc>, qs: seq<Proc>, n: nat)
    requires n <= |ps| && n <= |qs| && forall p :: 0 <= p < n ==> qs[p].late == ps[p].late
    ensures LateUpTo(ps, n) == LateUpTo(qs, n)
  {
    if n > 0 { SameLateUpTo(ps, qs, n - 1); }
  }

  lemma {:induction false} LateUpdated(ps: seq<Proc>, i: nat, p: Proc, n: nat)
    requires i < n <= |ps|
    ensures LateUpTo(ps[i := p], n) == LateUpTo(ps, n) - Bit(ps[i].late) + Bit(p.late)
  {
    if i == n - 1 {
      SameLateUpTo(ps[i := p], ps, i);
    } else {
      LateUpdated(ps, i, p, n - 1);
    }
  }

  lemma LateSums(ps: seq<Proc>, i: nat, p: Proc)
    requires i < |ps|
    ensures LateHeld(ps[i := p]) == LateHeld(ps) - Bit(ps[i].late) + Bit(p.late)
  {
    LateUpdated(ps, i, p, |ps|);
  }

  lemma LateSumsMore(ps: seq<Proc>, p: Proc)
    ensures LateHeld(ps + [p]) == LateHeld(ps) + Bit(p.late)
  {
    SameLateUpTo(ps + [p], ps, |ps|);
  }

  lemma {:induction false} CoverUpTo(es: seq<Epoch>, i: nat, n: nat)
    requires i < n <= |es|
    ensures OpsUpTo(es, n) >= OpsOf(es[i])
    ensures LocksUpTo(es, n) >= One(es[i].local)
  {
    if i < n - 1 { CoverUpTo(es, i, n - 1); }
  }

  lemma OpsCover(es: seq<Epoch>, i: nat)
    requires i < |es|
    ensures OpsHeld(es) >= OpsOf(es[i])
    ensures LocksHeld(es) >= One(es[i].local)
  {
    CoverUpTo(es, i, |es|);
  }

  // ----- the invariant -----

  predicate HandedOff(pc: Starter) {
    match pc
    case Failing(owns) => !owns
    case AwaitingClose(owns) => !owns
    case Leaving(owns) => !owns
    case _ => false
  }

  /** Who may hold the lock an epoch took for itself. */
  predicate EpochShape(e: Epoch) {
    && (e.starter.Unstarted? || e.starter.Acquire? || e.starter.Blocking? ==> e.local.Free?)
    && (e.starter.Locked? ==> e.local.Held?)
    && (HandedOff(e.starter) ==> !e.waiter.NoWaiter?)
    && (!HandedOff(e.starter) && !e.starter.Gone? ==> e.waiter.NoWaiter?)
    && (e.starter.Gone? && e.waiter.NoWaiter? ==> e.local.Free?)
    && (e.waiter.Returned? ==> e.local.Free?)
  }

  predicate PastWait(c: Cleanup) {
    !c.NoCleanup? && !c.Awaiting?
  }

  predicate LetGo(c: Cleanup) {
    c.Retrying? || c.Recording? || c.Dropping? || c.Dropped? || c.Finished?
  }

  predicate SessionShape(m: Session, c: Closer, n: nat) {
    && (m.claim.Some? ==> m.status.closed)
    && (m.epoch.Some? ==> m.epoch.value < n) && (m.retiring.Some? ==> m.retiring.value < n && m.retiring != m.epoch)
    && (!c.NotClosing? ==> m.claim.Some? && m.guard.Free? && m.epoch.None? && m.retiring.None?)
  }

  predicate ShutdownShape(d: Shutdown) {
    && (d.closerGuard.Held? ==> d.closer.Closing?)
    && (d.cleanup.NoCleanup? <==> !d.closer.Detached?)
    && (d.cleanup.NoCleanup? || LetGo(d.cleanup) ==> d.cleanupGuard.Free?)
    && d.doneClosed == Bit(d.cleanup.Finished?)
  }

  predicate RedoShape(r: Redo, c: Cleanup, ps: seq<Proc>) {
    && (r.pc.Idle? ==> r.lock.Free?)
    && (r.pc.Idle? || r.pc.Entered? || r.lock.Held?)
    && (!r.pc.Idle? <==> c.Retrying? || r.recovery.InRetry?)
    && (!r.recovery.Off? ==> c.Dropped? || c.Finished?)
    && (match r.pc
        case RetryOpened(p) => p < |ps| && !ps[p].late
        case RetryAborting(p, _) => p < |ps| && !ps[p].late
        case _ => true)
  }

  predicate EpochShapes(es: seq<Epoch>) {
    forall i :: 0 <= i < |es| ==> EpochShape(es[i])
  }

  /** Before closing detaches the session, whoever runs a start without the session's lock has its own. */
  predicate Backed(s: State) {
    s.shut.closer.NotClosing? && s.me.guard.Free? ==>
      forall i :: 0 <= i < |s.epochs| && StarterOwnsOp(s.epochs[i].starter) ==> s.epochs[i].local.Held?
  }

  predicate Shapes(s: State) {
    && EpochShapes(s.epochs) && Backed(s)
    && (s.me.epoch.Some? && s.me.epoch.value < |s.epochs| ==> s.epochs[s.me.epoch.value].retire.NotRetired?)
    && SessionShape(s.me, s.shut.closer, |s.epochs|)
    && ShutdownShape(s.shut)
    && RedoShape(s.redo, s.shut.cleanup, s.procs)
  }

  /** The holders of read locks. */
  function Holders(s: State): nat {
    LocksHeld(s.epochs) + One(s.me.guard) + One(s.shut.closerGuard) + One(s.shut.cleanupGuard) + One(s.redo.lock) + LateHeld(s.procs)
  }

  predicate Accounted(s: State) {
    && Shapes(s)
    && s.me.ops == OpsHeld(s.epochs)
    && (PastWait(s.shut.cleanup) ==> s.me.ops == 0 && s.me.status.closed)
    && s.me.locks == Holders(s)
  }

  lemma ProcStep(ps: seq<Proc>, p: nat, q: Proc)
    requires p < |ps| && q.late == ps[p].late
    ensures LateHeld(ps[p := q]) == LateHeld(ps)
  {
    LateSums(ps, p, q);
  }

  /** The processes may change, but not which of them hold a lock. */
  predicate SameLate(ps: seq<Proc>, qs: seq<Proc>) {
    && LateHeld(qs) == LateHeld(ps) && |ps| <= |qs|
    && forall p :: 0 <= p < |ps| ==> qs[p].late == ps[p].late
  }

  lemma KilledLate(ps: seq<Proc>, p: nat, cancelled: bool)
    ensures SameLate(ps, Killed(ps, p, cancelled))
  {
    if p < |ps| { ProcStep(ps, p, ps[p].(fate := if cancelled then Cancelled else Aborted)); }
  }

  lemma AcceptedLate(ps: seq<Proc>, p: nat)
    ensures SameLate(ps, Accepted(ps, p))
  {
    if p < |ps| { ProcStep(ps, p, ps[p].(accepted := true)); }
  }

  lemma LaunchedLate(ps: seq<Proc>, home: Home)
    ensures SameLate(ps, Launched(ps, home))
  {
    LateSumsMore(ps, Proc(home, Live, false, false));
  }

  /** A step that rewrites one epoch and the session record moves as many operations and locks as it counts. */
  predicate Balanced(m: Session, e: Epoch, n: Session, f: Epoch, c: Closer, len: nat) {
    && EpochShape(f) && SessionShape(n, c, len)
    && n.ops - m.ops == OpsOf(f) - OpsOf(e)
    && n.locks - m.locks == One(f.local) - One(e.local) + One(n.guard) - One(m.guard)
    && (m.status.closed ==> n.status.closed && n.ops <= m.ops)
    && n.epoch == m.epoch && (e.retire.NotRetired? ==> f.retire.NotRetired?)
    && (c.NotClosing? && n.guard.Free? ==>
          m.guard.Free? && ((StarterOwnsOp(e.starter) ==> e.local.Held?) ==> (StarterOwnsOp(f.starter) ==> f.local.Held?)))
  }

  lemma OneEpoch(s: State, i: nat, f: Effect)
    requires Accounted(s) && i < |s.epochs| && SameLate(s.procs, f.procs)
    requires Balanced(s.me, s.epochs[i], f.me, f.e, s.shut.closer, |s.epochs|)
    ensures Accounted(Do(s, i, f))
  {
    EpochSums(s.epochs, i, f.e);
    OpsCover(s.epochs, i);
  }

  lemma StarterLate(m: Session, ps: seq<Proc>, i: nat, e: Epoch, out: Outcome, detached: bool)
    ensures SameLate(ps, StarterStep(m, ps, i, e, out, detached).procs)
  {
    match e.starter
    case Opening => LaunchedLate(ps, OfEpoch(i));
    case Writing(p) => AcceptedLate(ps, p);
    case Discarding(p, _, _, gracefully) => KilledLate(ps, p, gracefully && out.Good?);
    case _ =>
  }

  lemma StarterLocksBalanced(m: Session, ps: seq<Proc>, i: nat, e: Epoch, c: Closer, len: nat)
    requires EpochShape(e) && SessionShape(m, c, len) && (e.starter.Acquire? || e.starter.Blocking? || e.starter.Locked?)
    ensures var f := StarterLocks(m, ps, i, e); Balanced(m, e, f.me, f.e, c, len)
  {
  }

  lemma StarterOpensBalanced(m: Session, ps: seq<Proc>, i: nat, e: Epoch, out: Outcome, c: Closer, len: nat)
    requires EpochShape(e) && SessionShape(m, c, len) && (e.starter.Opening? || e.starter.Opened?)
    ensures var f := StarterOpens(m, ps, i, e, out); Balanced(m, e, f.me, f.e, c, len)
  {
  }

  lemma StarterWritesBalanced(m: Session, ps: seq<Proc>, i: nat, e: Epoch, out: Outcome, c: Closer, len: nat)
    requires EpochShape(e) && SessionShape(m, c, len) && (e.starter.Writing? || e.starter.Wrote?)
    requires e.starter.Wrote? && Current(m, i) && m.guard.Free? ==> e.local.Held?
    ensures var f := StarterWrites(m, ps, i, e, out); Balanced(m, e, f.me, f.e, c, len)
  {
  }

  lemma StarterDiscardsBalanced(m: Session, ps: seq<Proc>, e: Epoch, out: Outcome, c: Closer, len: nat)
    requires EpochShape(e) && SessionShape(m, c, len) && (e.starter.Discard? || e.starter.Discarding? || e.starter.Crediting?)
    ensures var f := StarterDiscards(m, ps, e, out); Balanced(m, e, f.me, f.e, c, len)
  {
  }

  lemma StarterLeavesShape(m: Session, ps: seq<Proc>, i: nat, e: Epoch, c: Closer, len: nat)
    requires EpochShape(e) && SessionShape(m, c, len)
    ensures var f := StarterLeaves(m, ps, i, e, c.Detached?); EpochShape(f.e) && SessionShape(f.me, c, len)
  {
  }

  lemma StarterLeavesCounts(m: Session, ps: seq<Proc>, i: nat, e: Epoch, detached: bool)
    requires EpochShape(e)
    ensures var f := StarterLeaves(m, ps, i, e, detached);
            && f.me.ops - m.ops == OpsOf(f.e) - OpsOf(e) && f.me.ops <= m.ops
            && f.me.locks - m.locks == One(f.e.local) - One(e.local) && f.me.guard == m.guard
            && (m.status.closed ==> f.me.status.closed) && f.me.epoch == m.epoch && f.e.retire == e.retire
            && (StarterOwnsOp(f.e.starter) ==> StarterOwnsOp(e.starter) && f.e.local == e.local)
  {
  }

  lemma StarterLeavesBalanced(m: Session, ps: seq<Proc>, i: nat, e: Epoch, c: Closer, len: nat)
    requires EpochShape(e) && SessionShape(m, c, len)
    ensures var f := StarterLeaves(m, ps, i, e, c.Detached?); Balanced(m, e, f.me, f.e, c, len)
  {
    StarterLeavesShape(m, ps, i, e, c, len);
    StarterLeavesCounts(m, ps, i, e, c.Detached?);
  }

  lemma StarterBalanced(m: Session, ps: seq<Proc>, i: nat, e: Epoch, out: Outcome, c: Closer, len: nat)
    requires EpochShape(e) && SessionShape(m, c, len)
    requires e.starter.Wrote? && Current(m, i) && m.guard.Free? ==> e.local.Held?
    ensures var f := StarterStep(m, ps, i, e, out, c.Detached?); Balanced(m, e, f.me, f.e, c, len)
  {
    if e.starter.Acquire? || e.starter.Blocking? || e.starter.Locked? {
      StarterLocksBalanced(m, ps, i, e, c, len);
    } else if e.starter.Opening? || e.starter.Opened? {
      StarterOpensBalanced(m, ps, i, e, out, c, len);
    } else if e.starter.Writing? || e.starter.Wrote? {
      StarterWritesBalanced(m, ps, i, e, out, c, len);
    } else if e.starter.Discard? || e.starter.Discarding? || e.starter.Crediting? {
      StarterDiscardsBalanced(m, ps, e, out, c, len);
    } else {
      StarterLeavesBalanced(m, ps, i, e, c, len);
    }
  }

  lemma WaiterShape(m: Session, ps: seq<Proc>, e: Epoch, ok: bool, c: Closer, len: nat)
    requires EpochShape(e) && SessionShape(m, c, len)
    ensures var f := WaiterStep(m, ps, e, ok); EpochShape(f.e) && SessionShape(f.me, c, len)
  {
  }

  lemma WaiterCounts(m: Session, ps: seq<Proc>, e: Epoch, ok: bool)
    requires EpochShape(e)
    ensures var f := WaiterStep(m, ps, e, ok);
            && f.me.ops - m.ops == OpsOf(f.e) - OpsOf(e)
            && f.me.locks - m.locks == One(f.e.local) - One(e.local) && f.me.guard == m.guard
            && f.me.status == m.status && f.me.ops <= m.ops && f.me.epoch == m.epoch && f.e.retire == e.retire
            && f.e.starter == e.starter && (f.e.local == e.local || e.waiter.Returning?)
  {
  }

  lemma WaiterBalanced(m: Session, ps: seq<Proc>, e: Epoch, ok: bool, c: Closer, len: nat)
    requires EpochShape(e) && SessionShape(m, c, len)
    ensures var f := WaiterStep(m, ps, e, ok); Balanced(m, e, f.me, f.e, c, len)
  {
    WaiterShape(m, ps, e, ok, c, len);
    WaiterCounts(m, ps, e, ok);
  }

  lemma RetireShape(m: Session, ps: seq<Proc>, i: nat, e: Epoch, c: Closer, len: nat)
    requires EpochShape(e) && SessionShape(m, c, len)
    ensures var f := RetireStep(m, ps, i, e); EpochShape(f.e) && SessionShape(f.me, c, len)
  {
  }

  lemma RetireBalanced(m: Session, ps: seq<Proc>, i: nat, e: Epoch, c: Closer, len: nat)
    requires EpochShape(e) && SessionShape(m, c, len)
    ensures var f := RetireStep(m, ps, i, e); Balanced(m, e, f.me, f.e, c, len)
  {
    RetireShape(m, ps, i, e, c, len);
    match e.retire
    case Claimed =>
    case Deciding =>
    case Aborting =>
    case Done =>
    case _ =>
  }

  lemma StopBalanced(m: Session, ps: seq<Proc>, e: Epoch, ok: bool, c: Closer, len: nat)
    requires EpochShape(e) && SessionShape(m, c, len)
    ensures var f := StopStep(m, ps, e, ok); Balanced(m, e, f.me, f.e, c, len)
  {
  }

  lemma WaiterLate(m: Session, ps: seq<Proc>, e: Epoch, ok: bool)
    ensures SameLate(ps, WaiterStep(m, ps, e, ok).procs)
  {
    if e.plugin.Some? { AcceptedLate(ps, e.plugin.value); }
  }

  lemma RetireLate(m: Session, ps: seq<Proc>, i: nat, e: Epoch)
    ensures SameLate(ps, RetireStep(m, ps, i, e).procs)
  {
    if e.plugin.Some? { KilledLate(ps, e.plugin.value, false); }
  }

  lemma StopLate(m: Session, ps: seq<Proc>, e: Epoch, ok: bool)
    ensures SameLate(ps, StopStep(m, ps, e, ok).procs)
  {
    if e.plugin.Some? {
      KilledLate(ps, e.plugin.value, ok);
      KilledLate(ps, e.plugin.value, false);
    }
  }

  lemma StarterAccounted(s: State, i: nat, out: Outcome)
    requires Accounted(s) && i < |s.epochs|
    ensures Accounted(Do(s, i, StarterStep(s.me, s.procs, i, s.epochs[i], out, s.shut.closer.Detached?)))
  {
    assert EpochShape(s.epochs[i]);
    StarterBalanced(s.me, s.procs, i, s.epochs[i], out, s.shut.closer, |s.epochs|);
    StarterLate(s.me, s.procs, i, s.epochs[i], out, s.shut.closer.Detached?);
    OneEpoch(s, i, StarterStep(s.me, s.procs, i, s.epochs[i], out, s.shut.closer.Detached?));
  }

  lemma WaiterAccounted(s: State, i: nat, ok: bool)
    requires Accounted(s) && i < |s.epochs|
    ensures Accounted(Do(s, i, WaiterStep(s.me, s.procs, s.epochs[i], ok)))
  {
    assert EpochShape(s.epochs[i]);
    WaiterBalanced(s.me, s.procs, s.epochs[i], ok, s.shut.closer, |s.epochs|);
    WaiterLate(s.me, s.procs, s.epochs[i], ok);
    OneEpoch(s, i, WaiterStep(s.me, s.procs, s.epochs[i], ok));
  }

  lemma RetireAccounted(s: State, i: nat)
    requires Accounted(s) && i < |s.epochs|
    ensures Accounted(Do(s, i, RetireStep(s.me, s.procs, i, s.epochs[i])))
  {
    assert EpochShape(s.epochs[i]);
    RetireBalanced(s.me, s.procs, i, s.epochs[i], s.shut.closer, |s.epochs|);
    RetireLate(s.me, s.procs, i, s.epochs[i]);
    OneEpoch(s, i, RetireStep(s.me, s.procs, i, s.epochs[i]));
  }

  lemma StopAccounted(s: State, i: nat, ok: bool)
    requires Accounted(s) && i < |s.epochs|
    ensures Accounted(Do(s, i, StopStep(s.me, s.procs, s.epochs[i], ok)))
  {
    assert EpochShape(s.epochs[i]);
    StopBalanced(s.me, s.procs, s.epochs[i], ok, s.shut.closer, |s.epochs|);
    StopLate(s.me, s.procs, s.epochs[i], ok);
    OneEpoch(s, i, StopStep(s.me, s.procs, s.epochs[i], ok));
  }

  lemma RoundsAccounted(s: State, a: Action)
    requires Accounted(s)
    ensures Accounted(RoundAction(s, a))
  {
    if HasCurrent(s) {
      var i := s.me.epoch.value;
      assert EpochShape(s.epochs[i]);
      OneEpoch(s, i, Effect(RoundStep(s.epochs[i], a), s.me, s.procs));
    }
  }

  lemma StartedAccounted(s: State)
    requires Accounted(s)
    ensures Accounted(Started(s))
  {
    if Started(s) != s {
      EpochSumsMore(s.epochs, Started(s).epochs[|s.epochs|]);
    }
  }

  lemma NextRoundAccounted(s: State)
    requires Accounted(s)
    ensures Accounted(NextRound(s))
  {
    if NextRound(s) != s {
      var prior := s.me.epoch.value;
      var e := s.epochs[prior].(retire := Claimed);
      assert EpochShape(s.epochs[prior]);
      EpochSums(s.epochs, prior, e);
      EpochSumsMore(s.epochs[prior := e], PLACEHOLDER);
    }
  }

  lemma EnqueueSums(es: seq<Epoch>, which: Option<nat>)
    requires EpochShapes(es)
    ensures OpsHeld(Enqueue(es, which)) == OpsHeld(es) && LocksHeld(Enqueue(es, which)) == LocksHeld(es)
    ensures |Enqueue(es, which)| == |es| && EpochShapes(Enqueue(es, which))
  {
    if which.Some? && which.value < |es| {
      assert EpochShape(es[which.value]);
      EpochSums(es, which.value, es[which.value].(stop := Queued));
    }
  }

  lemma DetachAccounted(s: State)
    requires Accounted(s)
    ensures Accounted(DetachStep(s))
  {
    EnqueueSums(s.epochs, s.me.epoch);
    EnqueueSums(Enqueue(s.epochs, s.me.epoch), s.me.retiring);
  }

  lemma CleanupAccounted(s: State)
    requires Accounted(s)
    ensures Accounted(CleanupStep(s))
  {
    match s.shut.cleanup
    case Awaiting => if s.me.ops != 0 {} else if Graceful(s.me) {} else {}
    case WantsRetry => if !s.redo.pc.Idle? {} else if Owing(s.me) {} else {}
    case Judging =>
    case Weighing(_) =>
    case Unlocking(_, _) =>
    case Recording(receipt, recovery) => if receipt {} else if recovery {} else {}
    case _ =>
  }

  lemma EndRetryAccounted(s: State, lock: Hold, result: bool)
    requires Shapes(s) && s.me.ops == OpsHeld(s.epochs) && (PastWait(s.shut.cleanup) ==> s.me.ops == 0 && s.me.status.closed)
    requires !s.redo.pc.Idle? && s.me.locks - One(lock) == Holders(s) - One(s.redo.lock)
    ensures Accounted(EndRetry(s, lock, result))
  {
    if s.shut.cleanup.Retrying? {} else {}
  }

  lemma RetryAccounted(s: State, out: Outcome)
    requires Accounted(s)
    ensures Accounted(RetryStep(s, out))
  {
    match s.redo.pc
    case Guarded => if !out.Good? { EndRetryAccounted(s, s.redo.lock, false); } else { LaunchedLate(s.procs, OfRetry); }
    case RetryOpened(p) => if out.Good? { AcceptedLate(s.procs, p); } else if out.Bad? {} else {}
    case RetryAborting(p, pending) => RetryAbortAccounted(s, p, pending, out);
    case RetryWritten(p) => KilledLate(s.procs, p, out.Good?);
    case RetryCancelled(ok) =>
      EndRetryAccounted(s.(me := WithDebt(s.me, s.me.debt.required, s.me.debt.applied || ok)), s.redo.lock, ok);
    case _ =>
  }

  lemma RetryAbortAccounted(s: State, p: nat, pending: bool, out: Outcome)
    requires Accounted(s) && s.redo.pc == RetryAborting(p, pending)
    ensures Accounted(RetryStep(s, out))
  {
    var ps := Killed(s.procs, p, false);
    KilledLate(s.procs, p, false);
    if pending {
      LateSums(ps, p, ps[p].(late := true));
      EndRetryAccounted(s.(procs := ps[p := ps[p].(late := true)], redo := s.redo.(pc := Guarded)), Free, false);
    } else {
      EndRetryAccounted(s.(procs := ps), s.redo.lock, false);
    }
  }

  lemma LateAccounted(s: State, p: nat, ok: bool)
    requires Accounted(s)
    ensures Accounted(LateStep(s, p, ok))
  {
    if p < |s.procs| { LateSums(s.procs, p, s.procs[p].(late := false, accepted := s.procs[p].accepted || ok)); }
  }

  lemma DiesAccounted(s: State)
    requires Accounted(s) && |s.procs| > 0
    ensures Accounted(s.(procs := Killed(s.procs, |s.procs| - 1, false)))
  {
    KilledLate(s.procs, |s.procs| - 1, false);
  }

  lemma ClosingAccounted(s: State, a: Action)
    requires Accounted(s) && (a.SetTerminal? || a.MarkClosed? || a.Claim? || a.FinishClose?)
    ensures Accounted(Step(s, a))
  {
  }

  lemma RecoveryAccounted(s: State, a: Action)
    requires Accounted(s) && (a.StartRecovery? || a.RecoveryMoves? || a.Publish? || a.Forget? || a.Transfer?)
    ensures Accounted(Step(s, a))
  {
    match a
    case RecoveryMoves =>
      if s.redo.recovery.Wanting? { if !s.redo.pc.Idle? {} else if Owing(s.me) {} else {} } else {}
    case _ =>
  }

  lemma {:induction false} NothingUpTo(es: seq<Epoch>, n: nat)
    requires n <= |es|
    ensures (forall i :: 0 <= i < n ==> OpsOf(es[i]) == 0) ==> OpsUpTo(es, n) == 0
    ensures (forall i :: 0 <= i < n ==> es[i].local.Free?) ==> LocksUpTo(es, n) == 0
  {
    if n > 0 { NothingUpTo(es, n - 1); }
  }

  lemma {:induction false} NoLateUpTo(ps: seq<Proc>, n: nat)
    requires n <= |ps|
    ensures (forall p :: 0 <= p < n ==> !ps[p].late) ==> LateUpTo(ps, n) == 0
  {
    if n > 0 { NoLateUpTo(ps, n - 1); }
  }

  lemma NothingHeld(es: seq<Epoch>, ps: seq<Proc>)
    ensures (forall i :: 0 <= i < |es| ==> OpsOf(es[i]) == 0) ==> OpsHeld(es) == 0
    ensures (forall i :: 0 <= i < |es| ==> es[i].local.Free?) ==> LocksHeld(es) == 0
    ensures (forall p :: 0 <= p < |ps| ==> !ps[p].late) ==> LateHeld(ps) == 0
  {
    NothingUpTo(es, |es|);
    NoLateUpTo(ps, |ps|);
  }

  lemma IdleAccounted(s: State)
    requires Shapes(s) && |s.epochs| == 1 && |s.procs| <= 1 && s.me.ops == 0 == s.me.locks && !PastWait(s.shut.cleanup)
    requires OpsOf(s.epochs[0]) == 0 && s.epochs[0].local.Free? && (|s.procs| == 1 ==> !s.procs[0].late)
    requires s.me.guard.Free? && s.shut.closerGuard.Free? && s.shut.cleanupGuard.Free? && s.redo.lock.Free?
    ensures Accounted(s)
  {
    NothingHeld(s.epochs, s.procs);
  }

  lemma BornAccounted(inherits: bool)
    ensures Accounted(NewSession(inherits))
  {
    IdleAccounted(NewSession(inherits));
  }

  lemma GoroutineAccounted(s: State, a: Action)
    requires Accounted(s) && (a.StarterMoves? || a.WaiterMoves? || a.RetireMoves? || a.StopMoves?)
    ensures Accounted(Step(s, a))
  {
    match a
    case StarterMoves(i, out) => if i < |s.epochs| { StarterAccounted(s, i, out); }
    case WaiterMoves(i, ok) => if i < |s.epochs| { WaiterAccounted(s, i, ok); }
    case RetireMoves(i) => if i < |s.epochs| { RetireAccounted(s, i); }
    case StopMoves(i, ok) => if i < |s.epochs| { StopAccounted(s, i, ok); }
  }

  lemma SessionAccounted(s: State, a: Action)
    requires Accounted(s)
    requires a.StartEpoch? || a.BeginNextRound? || a.Detach? || a.PluginReady? || a.RoundReserved? || a.Interrupt?
    ensures Accounted(Step(s, a))
  {
    match a
    case StartEpoch => StartedAccounted(s);
    case BeginNextRound => NextRoundAccounted(s);
    case Detach => DetachAccounted(s);
    case _ => RoundsAccounted(s, a);
  }

  lemma StepAccounted(s: State, a: Action)
    requires Accounted(s)
    ensures Accounted(Step(s, a))
  {
    if a.StarterMoves? || a.WaiterMoves? || a.RetireMoves? || a.StopMoves? {
      GoroutineAccounted(s, a);
    } else if a.StartEpoch? || a.BeginNextRound? || a.Detach? || a.PluginReady? || a.RoundReserved? || a.Interrupt? {
      SessionAccounted(s, a);
    } else if a.CleanupMoves? {
      CleanupAccounted(s);
    } else if a.RetryMoves? {
      RetryAccounted(s, a.out);
    } else if a.LateWrite? {
      LateAccounted(s, a.p, a.ok);
    } else if a.ProcessDies? {
      if |s.procs| > 0 { DiesAccounted(s); }
    } else if a.SetTerminal? || a.MarkClosed? || a.Claim? || a.FinishClose? {
      ClosingAccounted(s, a);
    } else {
      RecoveryAccounted(s, a);
    }
  }

  lemma {:induction false} ReachAccounted(t: Trace)
    ensures Accounted(Reach(t))
  {
    match t
    case Born(inherits) => BornAccounted(inherits);
    case After(before, action) =>
      ReachAccounted(before);
      StepAccounted(Reach(before), action);
  }

  /** What the accounts say about the goroutines, without the sums. */
  predicate Tidy(s: State) {
    && Shapes(s)
    && (PastWait(s.shut.cleanup) ==> s.me.status.closed && forall i :: 0 <= i < |s.epochs| ==> OpsOf(s.epochs[i]) == 0)
  }

  lemma AccountedTidy(s: State)
    requires Accounted(s)
    ensures Tidy(s)
  {
    if PastWait(s.shut.cleanup) {
      forall i | 0 <= i < |s.epochs| ensures OpsOf(s.epochs[i]) == 0 { OpsCover(s.epochs, i); }
    }
  }
}
