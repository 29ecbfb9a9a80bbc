/** Runs in which a plugin peer session meets the exceptions of its guarantees. */
module PeerLifecycleWitness {
  import opened Prelude
  import opened PeerLifecycle
  import opened PeerLifecycleLocks
  import opened PeerLifecycleDebt
  import opened PeerLifecycleTheorems

  ghost predicate Reachable(s: State) {
    exists t: Trace :: Reach(t) == s
  }

  lemma Go(s: State, a: Action, next: State)
    requires Reachable(s) && next == Step(s, a)
    ensures Reachable(next)
  {
    var t: Trace :| Reach(t) == s;
    assert Reach(After(t, a)) == next;
  }

  lemma Clean(s: State, next: State)
    requires Reachable(s) && next == CleanupStep(s)
    ensures Reachable(next)
  {
    Go(s, CleanupMoves, next);
  }

  /** A first epoch in which the starter stands at `pc`. */
  function Opening1(e: Epoch, ps: seq<Proc>, ops: int, locks: int): State {
    State([PLACEHOLDER, e], ps, Session(Status(false, false), Free, None, Debt(false, false), Some(1), None, 1, 1, ops, locks),
          Shutdown(NotClosing, Free, NoCleanup, Free, 0), Redo(Idle, Free, Off, 0), Desk(false, false, true, false))
  }

  const FIRST := PLACEHOLDER.(generation := 1)
  const RUNNING := Proc(OfEpoch(1), Live, false, false)

  lemma Locked1() returns (s: State)
    ensures Reachable(s) && s == Opening1(FIRST.(starter := Locked, local := Held), [], 0, 1)
  {
    var s0 := NewSession(false);
    assert Reach(Born(false)) == s0;
    var s1 := Opening1(FIRST.(starter := Acquire), [], 0, 0);
    Go(s0, StartEpoch, s1);
    var s2 := Opening1(FIRST.(starter := Blocking), [], 0, 0);
    Go(s1, StarterMoves(1, Good), s2);
    s := Opening1(FIRST.(starter := Locked, local := Held), [], 0, 1);
    Go(s2, StarterMoves(1, Good), s);
  }

  /** The first plugin has been opened and Open is being written. */
  lemma Writing1() returns (s: State)
    ensures Reachable(s) && s == Opening1(FIRST.(plugin := Some(0), local := Held, starter := Writing(0)), [RUNNING], 1, 1)
  {
    var s3 := Locked1();
    var s4 := Opening1(FIRST.(starter := Opening, local := Held), [], 1, 1);
    Go(s3, StarterMoves(1, Good), s4);
    var s5 := Opening1(FIRST.(starter := Opened(0), local := Held), [RUNNING], 1, 1);
    Go(s4, StarterMoves(1, Good), s5);
    s := Opening1(FIRST.(plugin := Some(0), local := Held, starter := Writing(0)), [RUNNING], 1, 1);
    Go(s5, StarterMoves(1, Good), s);
  }

  /** The write of the first Open times out and then fails: its waiter lets the lock go while the process
      still runs. An install could now overlap it. */
  lemma ReachesGap() returns (s: State)
    ensures Reachable(s) && LockGap(s) && s.me.locks == 0
  {
    var s0 := Writing1();
    var e := FIRST.(plugin := Some(0), local := Held, starter := Failing(false), waiter := Waiting);
    var s1 := Opening1(e, [RUNNING], 1, 1);
    Go(s0, StarterMoves(1, Slow), s1);
    var s2 := Opening1(e.(waiter := Returning), [RUNNING], 1, 1);
    Go(s1, WaiterMoves(1, false), s2);
    s := Opening1(e.(waiter := Returned, local := Free), [RUNNING], 0, 0);
    Go(s2, WaiterMoves(1, false), s);
  }

  lemma GapHappens()
    ensures exists t: Trace :: LockGap(Reach(t)) && Reach(t).me.locks == 0
  {
    var s := ReachesGap();
    var t: Trace :| Reach(t) == s;
    assert LockGap(Reach(t));
  }

  // ----- a receipt for a session that the Hub had ended -----

  const TOOK := Proc(OfEpoch(1), Live, true, false)
  const KEPT := FIRST.(plugin := Some(0), open := Committed, starter := Gone)

  function Ended(closed: bool, guard: Hold, claim: Option<bool>, epoch: Option<nat>, locks: int): Session {
    Session(Status(closed, true), guard, claim, Debt(false, false), epoch, None, 1, 1, 0, locks)
  }

  /** The first plugin took Open, and its epoch is kept. */
  lemma Kept1() returns (s: State)
    ensures Reachable(s)
    ensures s == State([PLACEHOLDER, KEPT], [TOOK], Session(Status(false, false), Held, None, Debt(false, false), Some(1), None, 1, 1, 0, 1),
                       Shutdown(NotClosing, Free, NoCleanup, Free, 0), Redo(Idle, Free, Off, 0), Desk(false, false, true, false))
  {
    var s0 := Writing1();
    var s1 := Opening1(FIRST.(plugin := Some(0), local := Held, starter := Wrote(0)), [TOOK], 1, 1);
    Go(s0, StarterMoves(1, Good), s1);
    var s2 := s1.(epochs := [PLACEHOLDER, KEPT.(starter := Leaving(true))], me := s1.me.(guard := Held));
    Go(s1, StarterMoves(1, Good), s2);
    s := s2.(epochs := [PLACEHOLDER, KEPT], me := s2.me.(ops := 0));
    Go(s2, StarterMoves(1, Good), s);
  }

  lemma Ended1() returns (s: State)
    ensures Reachable(s)
    ensures s == State([PLACEHOLDER, KEPT], [TOOK], Ended(false, Held, None, Some(1), 1),
                       Shutdown(NotClosing, Free, NoCleanup, Free, 0), Redo(Idle, Free, Off, 0), Desk(false, false, true, false))
  {
    var s0 := Kept1();
    s := s0.(me := Ended(false, Held, None, Some(1), 1));
    Go(s0, SetTerminal, s);
  }

  /** The Hub's end arrives, and a local failure claims the close: the plugin is aborted without a debt. */
  lemma Aborted1() returns (s: State)
    ensures Reachable(s)
    ensures s == State([PLACEHOLDER, KEPT.(stop := Stopped)], [TOOK.(fate := Aborted)], Ended(true, Free, Some(false), None, 1),
                       Shutdown(Closing, Held, NoCleanup, Free, 0), Redo(Idle, Free, Off, 0), Desk(false, false, true, false))
  {
    var s0 := Ended1();
    var s1 := s0.(me := Ended(true, Held, Some(false), Some(1), 1));
    Go(s0, Claim(false), s1);
    var s2 := s1.(epochs := [PLACEHOLDER, KEPT.(stop := Queued)], me := Ended(true, Free, Some(false), None, 1),
                  shut := Shutdown(Closing, Held, NoCleanup, Free, 0));
    Go(s1, Detach, s2);
    var s3 := s2.(epochs := [PLACEHOLDER, KEPT.(stop := Flagged)]);
    Go(s2, StopMoves(1, false), s3);
    s := s3.(epochs := [PLACEHOLDER, KEPT.(stop := Stopped)], procs := [TOOK.(fate := Aborted)]);
    Go(s3, StopMoves(1, false), s);
  }

  function After1(cleanup: Cleanup, guard: Hold, listed: bool, done: nat, recovery: Recovery, publishing: nat, receipt: bool): State {
    State([PLACEHOLDER, KEPT.(stop := Stopped)], [TOOK.(fate := Aborted)], Ended(true, Free, Some(false), None, if guard.Held? then 1 else 0),
          Shutdown(Detached, Free, cleanup, guard, done), Redo(Idle, Free, recovery, publishing), Desk(receipt, false, listed, false))
  }

  lemma Judged1() returns (s: State)
    ensures Reachable(s) && s == After1(Unlocking(false, false), Held, true, 0, Off, 0, false)
  {
    var s0 := Aborted1();
    var s1 := After1(Awaiting, Held, true, 0, Off, 0, false);
    assert NoneStopping(s0.epochs);
    Go(s0, FinishClose, s1);
    var s2 := After1(Judging, Held, true, 0, Off, 0, false);
    Clean(s1, s2);
    var s3 := After1(Weighing(false), Held, true, 0, Off, 0, false);
    Clean(s2, s3);
    s := After1(Unlocking(false, false), Held, true, 0, Off, 0, false);
    Clean(s3, s);
  }

  lemma Finished1() returns (s: State)
    ensures Reachable(s) && s == After1(Finished, Free, false, 1, Off, 0, false)
  {
    var s0 := Judged1();
    var s1 := After1(Recording(false, false), Free, true, 0, Off, 0, false);
    Clean(s0, s1);
    var s2 := After1(Dropping, Free, true, 0, Off, 0, false);
    Clean(s1, s2);
    var s3 := After1(Dropped, Free, false, 0, Off, 0, false);
    Clean(s2, s3);
    s := After1(Finished, Free, false, 1, Off, 0, false);
    Clean(s3, s);
  }

  lemma Recovered1() returns (s: State)
    ensures Reachable(s) && s == After1(Finished, Free, false, 1, Result(true), 0, false)
  {
    var s0 := Finished1();
    var s1 := After1(Finished, Free, false, 1, Wanting, 0, false);
    Go(s0, StartRecovery, s1);
    s := After1(Finished, Free, false, 1, Result(true), 0, false);
    Go(s1, RecoveryMoves, s);
  }

  /** A later permit change asks for a cancel; the recovery finds no debt in the flags and publishes a
      receipt, although the plugin took Open and was never cancelled. */
  lemma ReachesReceipt() returns (s: State)
    ensures Reachable(s) && s.desk.receipt && Owes(s.procs) && s.me.status.terminal
  {
    var s2 := Recovered1();
    var s3 := After1(Finished, Free, false, 1, Off, 1, false);
    Go(s2, RecoveryMoves, s3);
    s := After1(Finished, Free, false, 1, Off, 0, true);
    Go(s3, Publish, s);
    assert Unpaid(s.procs, 0);
  }

  lemma TerminalReceiptHappens()
    ensures exists t: Trace :: Reach(t).desk.receipt && Owes(Reach(t).procs)
  {
    var s := ReachesReceipt();
    var t: Trace :| Reach(t) == s;
    assert Reach(t).desk.receipt;
  }

  // ----- an acknowledgement for a debt that was handed over -----

  const FAILED := KEPT.(cancelled := Some(false), stop := Stopped)
  const DIED := TOOK.(fate := Aborted)

  /** The session asked its plugin to cancel; `owing` tells that the failure is noted. */
  function Asked(guard: Hold, owing: bool, locks: int): Session {
    Session(Status(true, false), guard, Some(true), Debt(owing, false), None, None, 1, 1, 0, locks)
  }

  /** A graceful close detaches the session, and the Cancel of its plugin fails. */
  lemma Failed1() returns (s: State)
    ensures Reachable(s)
    ensures s == State([PLACEHOLDER, FAILED], [DIED], Asked(Free, true, 1), Shutdown(Closing, Held, NoCleanup, Free, 0),
                       Redo(Idle, Free, Off, 0), Desk(false, false, true, false))
  {
    var s0 := Kept1();
    var s1 := s0.(me := Asked(Held, false, 1).(epoch := Some(1)));
    Go(s0, Claim(true), s1);
    var s2 := s1.(epochs := [PLACEHOLDER, KEPT.(stop := Queued)], me := Asked(Free, false, 1),
                  shut := Shutdown(Closing, Held, NoCleanup, Free, 0));
    Go(s1, Detach, s2);
    var s3 := s2.(epochs := [PLACEHOLDER, KEPT.(stop := CancelReturned(false))], procs := [DIED]);
    Go(s2, StopMoves(1, false), s3);
    s := s3.(epochs := [PLACEHOLDER, FAILED], me := Asked(Free, true, 1));
    Go(s3, StopMoves(1, false), s);
  }

  function Owing1(cleanup: Cleanup, guard: Hold, redo: Redo, done: nat, desk: Desk): State {
    State([PLACEHOLDER, FAILED], [DIED], Asked(Free, true, One(guard) + One(redo.lock)), Shutdown(Detached, Free, cleanup, guard, done), redo, desk)
  }

  const RESTING := Redo(Idle, Free, Off, 0)
  const UNKNOWN := Desk(false, false, true, false)
  const RECORDED := Desk(false, true, true, false)

  /** So does the retry of cleanup. */
  lemma Retried1() returns (s: State)
    ensures Reachable(s) && s == Owing1(Judging, Free, RESTING, 0, UNKNOWN)
  {
    var s0 := Failed1();
    var s1 := Owing1(Awaiting, Held, RESTING, 0, UNKNOWN);
    assert NoneStopping(s0.epochs);
    Go(s0, FinishClose, s1);
    var s2 := Owing1(WantsRetry, Held, RESTING, 0, UNKNOWN);
    Clean(s1, s2);
    var s3 := Owing1(Retrying, Free, Redo(Entered, Held, Off, 0), 0, UNKNOWN);
    Clean(s2, s3);
    var s4 := Owing1(Retrying, Free, Redo(Guarded, Held, Off, 0), 0, UNKNOWN);
    Go(s3, RetryMoves(Bad), s4);
    s := Owing1(Judging, Free, RESTING, 0, UNKNOWN);
    Go(s4, RetryMoves(Bad), s);
  }

  lemma Weighed1() returns (s: State)
    ensures Reachable(s) && s == Owing1(Unlocking(false, true), Free, RESTING, 0, UNKNOWN)
  {
    var s0 := Retried1();
    var s1 := Owing1(Weighing(false), Free, RESTING, 0, UNKNOWN);
    Clean(s0, s1);
    s := Owing1(Unlocking(false, true), Free, RESTING, 0, UNKNOWN);
    Clean(s1, s);
  }

  lemma Recorded1() returns (s: State)
    ensures Reachable(s) && s == Owing1(Dropping, Free, RESTING, 0, RECORDED)
  {
    var s0 := Weighed1();
    var s1 := Owing1(Recording(false, true), Free, RESTING, 0, UNKNOWN);
    Clean(s0, s1);
    s := Owing1(Dropping, Free, RESTING, 0, RECORDED);
    Clean(s1, s);
  }

  lemma Dropped1() returns (s: State)
    ensures Reachable(s) && s == Owing1(Finished, Free, RESTING, 1, RECORDED.(listed := false))
  {
    var s0 := Recorded1();
    var s1 := Owing1(Dropped, Free, RESTING, 0, RECORDED.(listed := false));
    Clean(s0, s1);
    s := Owing1(Finished, Free, RESTING, 1, RECORDED.(listed := false));
    Clean(s1, s);
  }

  function Handed(s: State): State {
    s.(me := s.me.(debt := Debt(false, true)), desk := Desk(false, false, false, true))
  }

  lemma Replays(s: State, next: State)
    requires Reachable(s) && next == TransferStep(s)
    ensures Reachable(next)
  {
    Go(s, Transfer, next);
  }

  /** Before the flags are read for the answer to the Hub, a replayed prepare takes the debt over. */
  lemma Handed1() returns (s: State)
    ensures Reachable(s) && s == Handed(Owing1(Finished, Free, RESTING, 1, RECORDED.(listed := false)))
  {
    var s0 := Dropped1();
    s := Handed(s0);
    Replays(s0, s);
  }

  lemma ReachesAck() returns (s: State)
    ensures Reachable(s) && HubCancelAcked(s) && Owes(s.procs) && !s.me.status.terminal
  {
    s := Handed1();
    assert Unpaid(s.procs, 0);
  }

  lemma HandOverAckHappens()
    ensures exists t: Trace :: HubCancelAcked(Reach(t)) && Owes(Reach(t).procs) && !Reach(t).me.status.terminal
  {
    var s := ReachesAck();
    var t: Trace :| Reach(t) == s;
    assert HubCancelAcked(Reach(t));
  }
}
