/** Where the epochs of a session stand, and which goroutine is answerable for its live process. */
module PeerLifecyclePlaces {
  import opened Prelude
  import opened PeerLifecycle
  import opened PeerLifecycleLocks

  predicate BeforeLaunch(pc: Starter) {
    pc.Acquire? || pc.Blocking? || pc.Locked? || pc.Opening?
  }

  predicate Busy(pc: Starter) {
    !pc.Unstarted? && !pc.Leaving? && !pc.Gone?
  }

  /** The process a starter holds before the epoch owns it. */
  function Uncommitted(pc: Starter): Option<nat> {
    match pc
    case Opened(p) => Some(p)
    case Discard(p, told, _) => if told then None else Some(p)
    case Discarding(p, told, _, _) => if told then None else Some(p)
    case _ => None
  }

  /** The process of the epoch that the starter is working on. */
  function Working(pc: Starter): Option<nat> {
    match pc
    case Writing(p) => Some(p)
    case Wrote(p) => Some(p)
    case Discard(p, told, _) => if told then Some(p) else None
    case Discarding(p, told, _, _) => if told then Some(p) else None
    case _ => None
  }

  /** The starter discards a process that took Open. */
  predicate Told(pc: Starter) {
    match pc
    case Discard(_, told, _) => told
    case Discarding(_, told, _, _) => told
    case Crediting(_) => true
    case _ => false
  }

  /** The starter has given up because the session was closed. */
  predicate GaveUp(pc: Starter) {
    match pc
    case Discard(_, _, fails) => !fails
    case Discarding(_, _, fails, _) => !fails
    case Crediting(fails) => !fails
    case AwaitingClose(_) => true
    case Leaving(_) => true
    case Gone => true
    case _ => false
  }

  predicate Fated(e: Epoch, ps: seq<Proc>, cancelled: bool) {
    e.plugin.Some? && e.plugin.value < |ps| && !ps[e.plugin.value].fate.Live? && (cancelled <==> ps[e.plugin.value].fate.Cancelled?)
  }

  predicate Dead(e: Epoch, ps: seq<Proc>) {
    e.plugin.Some? ==> e.plugin.value < |ps| && !ps[e.plugin.value].fate.Live?
  }

  predicate OwnHome(p: Option<nat>, i: nat, ps: seq<Proc>) {
    p.Some? ==> p.value < |ps| && ps[p.value].home == OfEpoch(i)
  }

  /** An epoch agrees with the process it owns. */
  predicate PlugOk(e: Epoch, i: nat, ps: seq<Proc>) {
    && OwnHome(e.plugin, i, ps) && OwnHome(Uncommitted(e.starter), i, ps)
    && (e.starter.Unstarted? || BeforeLaunch(e.starter) || Uncommitted(e.starter).Some? ==> e.plugin.None?)
    && (Working(e.starter).Some? ==> e.plugin == Working(e.starter))
    && (e.starter.Crediting? ==> Fated(e, ps, true)) && (Told(e.starter) ==> !e.open.Unapplied?)
    && (!e.waiter.NoWaiter? ==> e.plugin.Some? && !e.open.Committed?)
    && (e.starter.Unstarted? || BeforeLaunch(e.starter) || Uncommitted(e.starter).Some? || e.starter.Writing? || e.starter.Wrote? ==> e.open.Unapplied?)
    && (!e.open.Unapplied? || e.starter.Wrote? || e.waiter.Heard? ==> e.plugin.Some? && ps[e.plugin.value].accepted)
    && (!e.life.NotReady? ==> e.open.Committed?)
    && (e.open.Committed? ==> e.starter == Leaving(true) || e.starter.Gone?)
    && (e.cancelled.Some? ==> Fated(e, ps, e.cancelled.value) && e.stop.Stopped?)
    && (e.stop.CancelReturned? ==> Fated(e, ps, e.stop.ok))
    && (!e.retire.NotRetired? ==> e.life.Interrupted?)
    && (e.retire.Done? || e.retire.Replaced? || e.stop.Stopped? ==> Dead(e, ps))
  }

  /** An epoch is where the session record says. `free` tells that the newest epoch was never started. */
  predicate PlaceOk(m: Session, c: Closer, len: nat, free: bool, i: nat, e: Epoch) {
    && (m.epoch == Some(i) ==> i + 1 == len && e.retire.NotRetired? && e.stop.Untouched?)
    && (m.retiring == Some(i) ==> i + 2 == len && free && (e.retire.Claimed? || e.retire.Yielded?) && e.stop.Untouched?)
    && (Busy(e.starter) ==> i + 1 == len && (!m.status.closed ==> m.epoch == Some(i)))
    && (i + 1 < len && !e.starter.Unstarted? ==> e.open.Committed?)
    && (i + 1 < len && ((!e.retire.NotRetired? && !e.retire.Replaced?) || !e.stop.Untouched?) ==> i + 2 == len && free)
    && (i + 1 == len ==> e.retire.NotRetired?)
    && (!e.stop.Untouched? ==> !c.NotClosing?)
    && (Stopping(e) ==> c.Closing?)
    && (e.retire.Yielded? ==> m.status.closed) && (e.retire.Deciding? ==> e.stop.Untouched?)
    && (e.retire.Claimed? && !m.status.closed ==> m.retiring == Some(i))
    && (e.starter.Crediting? || (e.starter.Discarding? && e.starter.gracefully) ==> Graceful(m))
    && (GaveUp(e.starter) && !e.open.Committed? ==> m.status.closed)
  }

  /** Processes are added at the end and die once; what they are does not change otherwise. */
  predicate Grown(ps: seq<Proc>, qs: seq<Proc>) {
    && |ps| <= |qs|
    && forall p :: 0 <= p < |ps| ==>
         qs[p].home == ps[p].home && (ps[p].accepted ==> qs[p].accepted) && (ps[p].fate.Live? || qs[p].fate == ps[p].fate)
  }

  lemma PlugKept(e: Epoch, i: nat, ps: seq<Proc>, qs: seq<Proc>)
    requires PlugOk(e, i, ps) && Grown(ps, qs)
    ensures PlugOk(e, i, qs)
  {
  }

  /** The session record, seen from an epoch that does not move. */
  predicate SamePlace(m: Session, n: Session) {
    n.epoch == m.epoch && n.retiring == m.retiring && (m.status.closed ==> n.status.closed) && (m.claim.Some? ==> n.claim == m.claim)
  }

  predicate PlaceMoves(m: Session, n: Session, i: nat) {
    && n.epoch == m.epoch && (n.retiring == m.retiring || (m.retiring == Some(i) && n.retiring.None?))
    && (m.status.closed ==> n.status.closed) && (m.claim.Some? ==> n.claim == m.claim)
  }

  predicate EpochOk(m: Session, c: Closer, len: nat, free: bool, i: nat, e: Epoch, ps: seq<Proc>) {
    PlugOk(e, i, ps) && PlaceOk(m, c, len, free, i, e)
  }

  predicate Moves(m: Session, c: Closer, len: nat, free: bool, i: nat, ps: seq<Proc>, e: Epoch, f: Effect) {
    && EpochOk(f.me, c, len, free, i, f.e, f.procs) && Grown(ps, f.procs) && PlaceMoves(m, f.me, i)
    && (e.starter.Unstarted? <==> f.e.starter.Unstarted?)
  }

  lemma LocksMove(m: Session, c: Closer, len: nat, free: bool, i: nat, e: Epoch, ps: seq<Proc>)
    requires EpochOk(m, c, len, free, i, e, ps) && (e.starter.Acquire? || e.starter.Blocking? || e.starter.Locked?)
    ensures Moves(m, c, len, free, i, ps, e, StarterLocks(m, ps, i, e))
  {
  }

  lemma OpensMove(m: Session, c: Closer, len: nat, free: bool, i: nat, e: Epoch, ps: seq<Proc>, out: Outcome)
    requires EpochOk(m, c, len, free, i, e, ps) && (e.starter.Opening? || e.starter.Opened?)
    ensures Moves(m, c, len, free, i, ps, e, StarterOpens(m, ps, i, e, out))
  {
  }

  lemma WritesMove(m: Session, c: Closer, len: nat, free: bool, i: nat, e: Epoch, ps: seq<Proc>, out: Outcome)
    requires EpochOk(m, c, len, free, i, e, ps) && EpochShape(e) && (e.starter.Writing? || e.starter.Wrote?)
    ensures Moves(m, c, len, free, i, ps, e, StarterWrites(m, ps, i, e, out))
  {
    WritesPlug(m, i, e, ps, out);
    WritesPlace(m, c, len, free, i, e, ps, out);
  }

  lemma WritesPlug(m: Session, i: nat, e: Epoch, ps: seq<Proc>, out: Outcome)
    requires PlugOk(e, i, ps) && EpochShape(e) && (e.starter.Writing? || e.starter.Wrote?)
    ensures var f := StarterWrites(m, ps, i, e, out); PlugOk(f.e, i, f.procs) && Grown(ps, f.procs)
  {
  }

  lemma WritesPlace(m: Session, c: Closer, len: nat, free: bool, i: nat, e: Epoch, ps: seq<Proc>, out: Outcome)
    requires PlugOk(e, i, ps) && PlaceOk(m, c, len, free, i, e) && (e.starter.Writing? || e.starter.Wrote?)
    ensures var f := StarterWrites(m, ps, i, e, out);
      PlaceOk(f.me, c, len, free, i, f.e) && PlaceMoves(m, f.me, i) && !f.e.starter.Unstarted?
  {
  }

  lemma DiscardsMove(m: Session, c: Closer, len: nat, free: bool, i: nat, e: Epoch, ps: seq<Proc>, out: Outcome)
    requires EpochOk(m, c, len, free, i, e, ps) && EpochShape(e) && (e.starter.Discard? || e.starter.Discarding? || e.starter.Crediting?)
    ensures Moves(m, c, len, free, i, ps, e, StarterDiscards(m, ps, e, out))
  {
    DiscardsPlug(m, i, e, ps, out);
    DiscardsPlace(m, c, len, free, i, e, ps, out);
  }

  lemma DiscardsPlug(m: Session, i: nat, e: Epoch, ps: seq<Proc>, out: Outcome)
    requires PlugOk(e, i, ps) && EpochShape(e) && (e.starter.Discard? || e.starter.Discarding? || e.starter.Crediting?)
    ensures var f := StarterDiscards(m, ps, e, out); PlugOk(f.e, i, f.procs) && Grown(ps, f.procs)
  {
  }

  lemma DiscardsPlace(m: Session, c: Closer, len: nat, free: bool, i: nat, e: Epoch, ps: seq<Proc>, out: Outcome)
    requires PlaceOk(m, c, len, free, i, e) && (e.starter.Discard? || e.starter.Discarding? || e.starter.Crediting?)
    ensures var f := StarterDiscards(m, ps, e, out);
      PlaceOk(f.me, c, len, free, i, f.e) && PlaceMoves(m, f.me, i) && !f.e.starter.Unstarted?
  {
  }

  lemma LeavesMove(m: Session, c: Closer, len: nat, free: bool, i: nat, e: Epoch, ps: seq<Proc>)
    requires EpochOk(m, c, len, free, i, e, ps)
    ensures Moves(m, c, len, free, i, ps, e, StarterLeaves(m, ps, i, e, c.Detached?))
  {
    LeavesPlug(m, c, i, e, ps);
    LeavesPlace(m, c, len, free, i, e, ps);
  }

  lemma LeavesPlace(m: Session, c: Closer, len: nat, free: bool, i: nat, e: Epoch, ps: seq<Proc>)
    requires PlaceOk(m, c, len, free, i, e)
    ensures var f := StarterLeaves(m, ps, i, e, c.Detached?);
      && PlaceOk(f.me, c, len, free, i, f.e) && PlaceMoves(m, f.me, i) && f.procs == ps
      && (e.starter.Unstarted? <==> f.e.starter.Unstarted?)
  {
  }

  lemma LeavesPlug(m: Session, c: Closer, i: nat, e: Epoch, ps: seq<Proc>)
    requires PlugOk(e, i, ps)
    ensures var f := StarterLeaves(m, ps, i, e, c.Detached?); PlugOk(f.e, i, f.procs)
  {
  }

  lemma StarterMove(m: Session, c: Closer, len: nat, free: bool, i: nat, e: Epoch, ps: seq<Proc>, out: Outcome)
    requires EpochOk(m, c, len, free, i, e, ps) && EpochShape(e)
    ensures Moves(m, c, len, free, i, ps, e, StarterStep(m, ps, i, e, out, c.Detached?))
  {
    if e.starter.Acquire? || e.starter.Blocking? || e.starter.Locked? {
      LocksMove(m, c, len, free, i, e, ps);
    } else if e.starter.Opening? || e.starter.Opened? {
      OpensMove(m, c, len, free, i, e, ps, out);
    } else if e.starter.Writing? || e.starter.Wrote? {
      WritesMove(m, c, len, free, i, e, ps, out);
    } else if e.starter.Discard? || e.starter.Discarding? || e.starter.Crediting? {
      DiscardsMove(m, c, len, free, i, e, ps, out);
    } else {
      LeavesMove(m, c, len, free, i, e, ps);
    }
  }

  lemma WaiterPlug(m: Session, i: nat, e: Epoch, ps: seq<Proc>, ok: bool)
    requires PlugOk(e, i, ps) && EpochShape(e)
    ensures var f := WaiterStep(m, ps, e, ok); PlugOk(f.e, i, f.procs) && Grown(ps, f.procs)
  {
  }

  lemma WaiterMove(m: Session, c: Closer, len: nat, free: bool, i: nat, e: Epoch, ps: seq<Proc>, ok: bool)
    requires EpochOk(m, c, len, free, i, e, ps) && EpochShape(e)
    ensures Moves(m, c, len, free, i, ps, e, WaiterStep(m, ps, e, ok))
  {
    WaiterPlug(m, i, e, ps, ok);
  }

  lemma RetireMove(m: Session, c: Closer, len: nat, free: bool, i: nat, e: Epoch, ps: seq<Proc>)
    requires EpochOk(m, c, len, free, i, e, ps)
    ensures Moves(m, c, len, free, i, ps, e, RetireStep(m, ps, i, e))
  {
    RetirePlug(m, i, e, ps);
    RetirePlace(m, c, len, free, i, e, ps);
  }

  lemma RetirePlace(m: Session, c: Closer, len: nat, free: bool, i: nat, e: Epoch, ps: seq<Proc>)
    requires PlaceOk(m, c, len, free, i, e)
    ensures var f := RetireStep(m, ps, i, e); PlaceOk(f.me, c, len, free, i, f.e) && PlaceMoves(m, f.me, i)
  {
  }

  lemma RetirePlug(m: Session, i: nat, e: Epoch, ps: seq<Proc>)
    requires PlugOk(e, i, ps)
    ensures var f := RetireStep(m, ps, i, e); PlugOk(f.e, i, f.procs) && Grown(ps, f.procs)
  {
  }

  lemma StopMove(m: Session, c: Closer, len: nat, free: bool, i: nat, e: Epoch, ps: seq<Proc>, ok: bool)
    requires EpochOk(m, c, len, free, i, e, ps)
    ensures Moves(m, c, len, free, i, ps, e, StopStep(m, ps, e, ok))
  {
    StopPlug(m, i, e, ps, ok);
    StopPlace(m, c, len, free, i, e, ps, ok);
  }

  lemma StopPlace(m: Session, c: Closer, len: nat, free: bool, i: nat, e: Epoch, ps: seq<Proc>, ok: bool)
    requires PlaceOk(m, c, len, free, i, e)
    ensures var f := StopStep(m, ps, e, ok); PlaceOk(f.me, c, len, free, i, f.e) && PlaceMoves(m, f.me, i)
  {
  }

  lemma StopPlug(m: Session, i: nat, e: Epoch, ps: seq<Proc>, ok: bool)
    requires PlugOk(e, i, ps)
    ensures var f := StopStep(m, ps, e, ok); PlugOk(f.e, i, f.procs) && Grown(ps, f.procs)
  {
  }

  // ----- the processes -----

  /** The epoch answers for the process: it still works on it, or its stop is still to come. */
  predicate Keeps(m: Session, i: nat, e: Epoch, p: nat) {
    || Uncommitted(e.starter) == Some(p)
    || (e.plugin == Some(p) &&
        (m.epoch == Some(i) || m.retiring == Some(i) || e.retire.Deciding? || e.retire.Aborting? || e.stop.Queued? || e.stop.Flagged?))
  }

  predicate RetryKeeps(r: RetryPc, p: nat) {
    r == RetryOpened(p) || r == RetryWritten(p) || r == RetryAborting(p, true) || r == RetryAborting(p, false)
  }

  /** Only the newest process can be alive, and somebody answers for it. */
  predicate LiveOk(s: State) {
    && (forall p :: 0 <= p < |s.procs| - 1 ==> !s.procs[p].fate.Live?)
    && (|s.procs| > 0 && s.procs[|s.procs| - 1].fate.Live? ==>
          match s.procs[|s.procs| - 1].home
          case Inherited => false
          case OfEpoch(i) => i < |s.epochs| && Keeps(s.me, i, s.epochs[i], |s.procs| - 1)
          case OfRetry => RetryKeeps(s.redo.pc, |s.procs| - 1))
  }

  /** Processes were opened in the order of their epochs, retries last. */
  predicate HomesOk(s: State) {
    && (forall q :: 0 <= q < |s.procs| ==>
          match s.procs[q].home
          case Inherited => q == 0 && !s.procs[q].fate.Live?
          case OfEpoch(j) => j < |s.epochs| && !s.epochs[j].starter.Unstarted? && !BeforeLaunch(s.epochs[j].starter)
          case OfRetry => PastWait(s.shut.cleanup))
    && (forall q, r :: 0 <= q < r < |s.procs| && s.procs[q].home.OfEpoch? && s.procs[r].home.OfEpoch? ==>
          s.procs[q].home.index < s.procs[r].home.index)
  }

  predicate Vacant(es: seq<Epoch>) {
    |es| > 0 && es[|es| - 1].starter.Unstarted?
  }

  predicate EpochsOk(s: State) {
    forall i :: 0 <= i < |s.epochs| ==>
      EpochOk(s.me, s.shut.closer, |s.epochs|, Vacant(s.epochs), i, s.epochs[i], s.procs)
  }

  predicate Placed(s: State) {
    && Tidy(s) && |s.epochs| > 0 && EpochsOk(s) && LiveOk(s) && HomesOk(s)
    && (s.me.epoch.Some? ==> s.me.epoch.value + 1 == |s.epochs|)
  }

  /** An epoch that is current or being retired owns the newest process, if it owns one. */
  lemma OwnsNewest(s: State, i: nat)
    requires Placed(s) && i < |s.epochs| && s.epochs[i].plugin.Some? && !PastWait(s.shut.cleanup)
    requires i + 1 == |s.epochs| || (i + 2 == |s.epochs| && Vacant(s.epochs))
    ensures s.epochs[i].plugin.value == |s.procs| - 1
  {
    var p := s.epochs[i].plugin.value;
    assert EpochOk(s.me, s.shut.closer, |s.epochs|, Vacant(s.epochs), i, s.epochs[i], s.procs);
    assert s.procs[p].home == OfEpoch(i);
    var last := |s.procs| - 1;
    assert s.procs[last].home.OfEpoch? ==> s.procs[last].home.index < |s.epochs|;
  }

  lemma NoKeeper(m: Session, c: Closer, len: nat, j: nat, e: Epoch, ps: seq<Proc>, p: nat)
    requires EpochOk(m, c, len, false, j, e, ps) && j < len && (m.epoch.Some? ==> m.epoch.value + 1 == len)
    requires j + 1 == len ==> e.starter.Opening?
    ensures !Keeps(m, j, e, p)
  {
  }

  /** No process is alive when a starter opens one. */
  lemma NothingLiveBeforeLaunch(s: State, i: nat)
    requires Placed(s) && i < |s.epochs| && s.epochs[i].starter.Opening?
    ensures i + 1 == |s.epochs|
    ensures forall p :: 0 <= p < |s.procs| ==> !s.procs[p].fate.Live?
  {
    assert EpochOk(s.me, s.shut.closer, |s.epochs|, Vacant(s.epochs), i, s.epochs[i], s.procs);
    assert OpsOf(s.epochs[i]) > 0;
    if |s.procs| > 0 { NoKeeperBeforeLaunch(s, i); }
  }

  lemma NoKeeperBeforeLaunch(s: State, i: nat)
    requires EpochsOk(s) && HomesOk(s) && i + 1 == |s.epochs| && s.epochs[i].starter.Opening? && |s.procs| > 0
    requires s.me.epoch.Some? ==> s.me.epoch.value + 1 == |s.epochs|
    ensures s.procs[|s.procs| - 1].home.OfEpoch? ==>
      var j := s.procs[|s.procs| - 1].home.index;
      j < |s.epochs| && !Keeps(s.me, j, s.epochs[j], |s.procs| - 1)
  {
    if s.procs[|s.procs| - 1].home.OfEpoch? {
      var j := s.procs[|s.procs| - 1].home.index;
      assert EpochOk(s.me, s.shut.closer, |s.epochs|, Vacant(s.epochs), j, s.epochs[j], s.procs);
      NoKeeper(s.me, s.shut.closer, |s.epochs|, j, s.epochs[j], s.procs, |s.procs| - 1);
    }
  }

  // ----- a goroutine of one epoch moves -----

  predicate Launches(i: nat, ps: seq<Proc>, e: Epoch, f: Effect) {
    e.starter.Opening? && f.procs == Launched(ps, OfEpoch(i)) && f.e.starter == Opened(|ps|)
  }

  /** The process p does not lose the epoch that answers for it, unless it dies. */
  predicate KeepOk(m: Session, i: nat, ps: seq<Proc>, e: Epoch, f: Effect, p: nat) {
    && (p < |ps| && |ps| <= |f.procs| && f.procs[p].fate.Live? && Keeps(m, i, e, p) ==> Keeps(f.me, i, f.e, p))
    && (|f.procs| == |ps| || Launches(i, ps, e, f))
    && (!e.starter.Unstarted? && !BeforeLaunch(e.starter) ==> !BeforeLaunch(f.e.starter))
  }

  lemma OpensKeep(m: Session, i: nat, e: Epoch, ps: seq<Proc>, out: Outcome, p: nat)
    requires PlugOk(e, i, ps) && (e.starter.Opening? || e.starter.Opened?)
    ensures KeepOk(m, i, ps, e, StarterOpens(m, ps, i, e, out), p)
  {
  }

  lemma StarterKeep(m: Session, c: Closer, i: nat, e: Epoch, ps: seq<Proc>, out: Outcome, p: nat)
    requires PlugOk(e, i, ps) && EpochShape(e)
    ensures KeepOk(m, i, ps, e, StarterStep(m, ps, i, e, out, c.Detached?), p)
  {
    if e.starter.Opening? || e.starter.Opened? { OpensKeep(m, i, e, ps, out, p); }
  }

  lemma WaiterKeep(m: Session, c: Closer, i: nat, e: Epoch, ps: seq<Proc>, ok: bool, p: nat)
    requires PlugOk(e, i, ps) && EpochShape(e)
    ensures var f := WaiterStep(m, ps, e, ok); KeepOk(m, i, ps, e, f, p)
  {
  }

  lemma RetireKeep(m: Session, c: Closer, i: nat, e: Epoch, ps: seq<Proc>, p: nat)
    requires PlugOk(e, i, ps)
    ensures var f := RetireStep(m, ps, i, e); KeepOk(m, i, ps, e, f, p)
  {
  }

  lemma StopKeep(m: Session, c: Closer, i: nat, e: Epoch, ps: seq<Proc>, ok: bool, p: nat)
    requires PlugOk(e, i, ps)
    ensures var f := StopStep(m, ps, e, ok); KeepOk(m, i, ps, e, f, p)
  {
  }

  lemma StillPlace(m: Session, n: Session, c: Closer, len: nat, free: bool, i: nat, j: nat, e: Epoch)
    requires PlaceOk(m, c, len, free, j, e) && PlaceMoves(m, n, i) && i != j
    ensures PlaceOk(n, c, len, free, j, e)
  {
  }

  lemma MovedEpochs(s: State, i: nat, f: Effect)
    requires EpochsOk(s) && i < |s.epochs|
    requires Moves(s.me, s.shut.closer, |s.epochs|, Vacant(s.epochs), i, s.procs, s.epochs[i], f)
    ensures EpochsOk(Do(s, i, f)) && Vacant(Do(s, i, f).epochs) == Vacant(s.epochs)
  {
    var t, c, n, free := Do(s, i, f), s.shut.closer, |s.epochs|, Vacant(s.epochs);
    assert Vacant(t.epochs) == free;
    forall j | 0 <= j < n ensures EpochOk(f.me, c, n, free, j, t.epochs[j], f.procs) {
      assert EpochOk(s.me, c, n, free, j, s.epochs[j], s.procs);
      if j != i {
        PlugKept(s.epochs[j], j, s.procs, f.procs);
        StillPlace(s.me, f.me, c, n, free, i, j, s.epochs[j]);
      }
    }
  }

  lemma MovedLive(s: State, i: nat, f: Effect)
    requires LiveOk(s) && HomesOk(s) && i < |s.epochs|
    requires Grown(s.procs, f.procs) && PlaceMoves(s.me, f.me, i)
    requires |f.procs| != |s.procs| ==> forall p :: 0 <= p < |s.procs| ==> !s.procs[p].fate.Live?
    requires KeepOk(s.me, i, s.procs, s.epochs[i], f, if |s.procs| > 0 then |s.procs| - 1 else 0)
    ensures LiveOk(Do(s, i, f))
  {
    if |f.procs| == |s.procs| && |s.procs| > 0 && f.procs[|s.procs| - 1].fate.Live? && s.procs[|s.procs| - 1].home.OfEpoch? {
      var j := s.procs[|s.procs| - 1].home.index;
      assert Keeps(s.me, j, s.epochs[j], |s.procs| - 1);
      assert j != i ==> Do(s, i, f).epochs[j] == s.epochs[j];
    }
  }

  lemma MovedHomes(s: State, i: nat, f: Effect)
    requires HomesOk(s) && i < |s.epochs| && Grown(s.procs, f.procs)
    requires |f.procs| != |s.procs| ==> i + 1 == |s.epochs|
    requires s.epochs[i].starter.Unstarted? <==> f.e.starter.Unstarted?
    requires KeepOk(s.me, i, s.procs, s.epochs[i], f, if |s.procs| > 0 then |s.procs| - 1 else 0)
    ensures HomesOk(Do(s, i, f))
  {
    var t := Do(s, i, f);
    forall q | 0 <= q < |t.procs| && t.procs[q].home.OfEpoch?
      ensures t.procs[q].home.index < |t.epochs|
      ensures var pc := t.epochs[t.procs[q].home.index].starter; !pc.Unstarted? && !BeforeLaunch(pc)
      ensures q < |s.procs| && |f.procs| != |s.procs| ==> t.procs[q].home.index < i
    {
      if q < |s.procs| {
        assert s.procs[q].home == t.procs[q].home;
      }
    }
  }

  lemma MovedPlaced(s: State, i: nat, f: Effect)
    requires Placed(s) && i < |s.epochs| && Tidy(Do(s, i, f))
    requires Moves(s.me, s.shut.closer, |s.epochs|, Vacant(s.epochs), i, s.procs, s.epochs[i], f)
    requires KeepOk(s.me, i, s.procs, s.epochs[i], f, if |s.procs| > 0 then |s.procs| - 1 else 0)
    ensures Placed(Do(s, i, f))
  {
    MovedEpochs(s, i, f);
    if |f.procs| != |s.procs| { NothingLiveBeforeLaunch(s, i); }
    MovedLive(s, i, f);
    MovedHomes(s, i, f);
  }

  lemma StarterFacts(m: Session, c: Closer, len: nat, free: bool, i: nat, e: Epoch, ps: seq<Proc>, out: Outcome, p: nat)
    requires EpochOk(m, c, len, free, i, e, ps) && EpochShape(e)
    ensures var f := StarterStep(m, ps, i, e, out, c.Detached?);
            Moves(m, c, len, free, i, ps, e, f) && KeepOk(m, i, ps, e, f, p)
  {
    StarterMove(m, c, len, free, i, e, ps, out);
    StarterKeep(m, c, i, e, ps, out, p);
  }

  lemma WaiterFacts(m: Session, c: Closer, len: nat, free: bool, i: nat, e: Epoch, ps: seq<Proc>, ok: bool, p: nat)
    requires EpochOk(m, c, len, free, i, e, ps) && EpochShape(e)
    ensures var f := WaiterStep(m, ps, e, ok);
            Moves(m, c, len, free, i, ps, e, f) && KeepOk(m, i, ps, e, f, p)
  {
    WaiterMove(m, c, len, free, i, e, ps, ok);
    WaiterKeep(m, c, i, e, ps, ok, p);
  }

  lemma RetireFacts(m: Session, c: Closer, len: nat, free: bool, i: nat, e: Epoch, ps: seq<Proc>, p: nat)
    requires EpochOk(m, c, len, free, i, e, ps) && EpochShape(e)
    ensures var f := RetireStep(m, ps, i, e);
            Moves(m, c, len, free, i, ps, e, f) && KeepOk(m, i, ps, e, f, p)
  {
    RetireMove(m, c, len, free, i, e, ps);
    RetireKeep(m, c, i, e, ps, p);
  }

  lemma StopFacts(m: Session, c: Closer, len: nat, free: bool, i: nat, e: Epoch, ps: seq<Proc>, ok: bool, p: nat)
    requires EpochOk(m, c, len, free, i, e, ps) && EpochShape(e)
    ensures var f := StopStep(m, ps, e, ok);
            Moves(m, c, len, free, i, ps, e, f) && KeepOk(m, i, ps, e, f, p)
  {
    StopMove(m, c, len, free, i, e, ps, ok);
    StopKeep(m, c, i, e, ps, ok, p);
  }

  lemma StarterMovesPlaced(s: State, i: nat, out: Outcome)
    requires Placed(s) && i < |s.epochs| && Tidy(Do(s, i, StarterStep(s.me, s.procs, i, s.epochs[i], out, s.shut.closer.Detached?)))
    ensures Placed(Do(s, i, StarterStep(s.me, s.procs, i, s.epochs[i], out, s.shut.closer.Detached?)))
  {
    var m, ps, e, c := s.me, s.procs, s.epochs[i], s.shut.closer;
    assert EpochOk(m, c, |s.epochs|, Vacant(s.epochs), i, e, ps) && EpochShape(e);
    StarterFacts(m, c, |s.epochs|, Vacant(s.epochs), i, e, ps, out, if |ps| > 0 then |ps| - 1 else 0);
    MovedPlaced(s, i, StarterStep(m, ps, i, e, out, c.Detached?));
  }

  lemma WaiterMovesPlaced(s: State, i: nat, ok: bool)
    requires Placed(s) && i < |s.epochs| && Tidy(Do(s, i, WaiterStep(s.me, s.procs, s.epochs[i], ok)))
    ensures Placed(Do(s, i, WaiterStep(s.me, s.procs, s.epochs[i], ok)))
  {
    var m, ps, e, c := s.me, s.procs, s.epochs[i], s.shut.closer;
    assert EpochOk(m, c, |s.epochs|, Vacant(s.epochs), i, e, ps) && EpochShape(e);
    WaiterFacts(m, c, |s.epochs|, Vacant(s.epochs), i, e, ps, ok, if |ps| > 0 then |ps| - 1 else 0);
    MovedPlaced(s, i, WaiterStep(m, ps, e, ok));
  }

  lemma RetireMovesPlaced(s: State, i: nat)
    requires Placed(s) && i < |s.epochs| && Tidy(Do(s, i, RetireStep(s.me, s.procs, i, s.epochs[i])))
    ensures Placed(Do(s, i, RetireStep(s.me, s.procs, i, s.epochs[i])))
  {
    var m, ps, e, c := s.me, s.procs, s.epochs[i], s.shut.closer;
    assert EpochOk(m, c, |s.epochs|, Vacant(s.epochs), i, e, ps) && EpochShape(e);
    RetireFacts(m, c, |s.epochs|, Vacant(s.epochs), i, e, ps, if |ps| > 0 then |ps| - 1 else 0);
    MovedPlaced(s, i, RetireStep(m, ps, i, e));
  }

  lemma StopMovesPlaced(s: State, i: nat, ok: bool)
    requires Placed(s) && i < |s.epochs| && Tidy(Do(s, i, StopStep(s.me, s.procs, s.epochs[i], ok)))
    ensures Placed(Do(s, i, StopStep(s.me, s.procs, s.epochs[i], ok)))
  {
    var m, ps, e, c := s.me, s.procs, s.epochs[i], s.shut.closer;
    assert EpochOk(m, c, |s.epochs|, Vacant(s.epochs), i, e, ps) && EpochShape(e);
    StopFacts(m, c, |s.epochs|, Vacant(s.epochs), i, e, ps, ok, if |ps| > 0 then |ps| - 1 else 0);
    MovedPlaced(s, i, StopStep(m, ps, e, ok));
  }

  // ----- the other actions -----

  lemma NoKeeperAfterWait(s: State, i: nat, p: nat)
    requires Placed(s) && PastWait(s.shut.cleanup) && i < |s.epochs|
    ensures !Keeps(s.me, i, s.epochs[i], p)
  {
    assert EpochOk(s.me, s.shut.closer, |s.epochs|, Vacant(s.epochs), i, s.epochs[i], s.procs);
  }

  /** Once cleanup has waited for all operations, only a retry can have a live process. */
  lemma NothingLiveAfterWait(s: State)
    requires Placed(s) && PastWait(s.shut.cleanup)
    ensures forall p :: 0 <= p < |s.procs| && s.procs[p].fate.Live? ==> p == |s.procs| - 1 && RetryKeeps(s.redo.pc, p)
  {
    if |s.procs| > 0 && s.procs[|s.procs| - 1].home.OfEpoch? && s.procs[|s.procs| - 1].home.index < |s.epochs| {
      NoKeeperAfterWait(s, s.procs[|s.procs| - 1].home.index, |s.procs| - 1);
    }
  }

  predicate RetryLaunch(s: State, t: State) {
    && t.procs == Launched(s.procs, OfRetry) && t.redo.pc == RetryOpened(|s.procs|) && PastWait(s.shut.cleanup)
    && s.redo.pc.Guarded?
  }

  predicate RetrySame(s: State, t: State) {
    && |t.procs| == |s.procs| && Grown(s.procs, t.procs)
    && (|s.procs| > 0 && t.procs[|s.procs| - 1].fate.Live? && RetryKeeps(s.redo.pc, |s.procs| - 1) ==> RetryKeeps(t.redo.pc, |s.procs| - 1))
  }

  predicate CloserMoves(s: State, t: State) {
    && (t.shut.closer == s.shut.closer || (s.shut.closer.Closing? && t.shut.closer.Detached? && NoneStopping(s.epochs)))
    && (PastWait(s.shut.cleanup) ==> PastWait(t.shut.cleanup))
  }

  lemma SameEpochsOk(s: State, t: State)
    requires EpochsOk(s) && t.epochs == s.epochs && SamePlace(s.me, t.me) && CloserMoves(s, t) && Grown(s.procs, t.procs)
    ensures EpochsOk(t)
  {
    forall i | 0 <= i < |s.epochs|
      ensures EpochOk(t.me, t.shut.closer, |s.epochs|, Vacant(s.epochs), i, s.epochs[i], t.procs)
    {
      assert EpochOk(s.me, s.shut.closer, |s.epochs|, Vacant(s.epochs), i, s.epochs[i], s.procs);
      PlugKept(s.epochs[i], i, s.procs, t.procs);
    }
  }

  lemma SameEpochsLive(s: State, t: State)
    requires LiveOk(s) && t.epochs == s.epochs && t.me.epoch == s.me.epoch && t.me.retiring == s.me.retiring
    requires RetrySame(s, t) || (RetryLaunch(s, t) && forall p :: 0 <= p < |s.procs| ==> !s.procs[p].fate.Live?)
    ensures LiveOk(t)
  {
    if RetrySame(s, t) && |s.procs| > 0 && t.procs[|s.procs| - 1].home.OfEpoch? && t.procs[|s.procs| - 1].fate.Live? {
      var i := t.procs[|s.procs| - 1].home.index;
      assert Keeps(s.me, i, s.epochs[i], |s.procs| - 1);
    }
  }

  lemma SameEpochsHomes(s: State, t: State)
    requires HomesOk(s) && t.epochs == s.epochs && CloserMoves(s, t)
    requires RetrySame(s, t) || RetryLaunch(s, t)
    ensures HomesOk(t)
  {
  }

  /** A step that leaves the epochs alone. */
  lemma SameEpochsPlaced(s: State, t: State)
    requires Placed(s) && Tidy(t) && t.epochs == s.epochs && SamePlace(s.me, t.me) && t.me.guard == s.me.guard
    requires CloserMoves(s, t) && (RetrySame(s, t) || RetryLaunch(s, t))
    ensures Placed(t)
  {
    if RetryLaunch(s, t) { NothingLiveAfterWait(s); }
    SameEpochsOk(s, t);
    SameEpochsLive(s, t);
    SameEpochsHomes(s, t);
  }

  lemma KilledGrown(ps: seq<Proc>, p: nat, cancelled: bool)
    ensures Grown(ps, Killed(ps, p, cancelled)) && |Killed(ps, p, cancelled)| == |ps|
    ensures p < |ps| ==> !Killed(ps, p, cancelled)[p].fate.Live?
  {
  }

  lemma RetrySteps(s: State, out: Outcome)
    requires Shapes(s) && (forall p :: 0 <= p < |s.procs| && s.procs[p].fate.Live? ==> p == |s.procs| - 1 && RetryKeeps(s.redo.pc, p))
    requires !s.redo.pc.Idle? ==> PastWait(s.shut.cleanup)
    ensures var t := RetryStep(s, out);
            && t.epochs == s.epochs && SamePlace(s.me, t.me) && t.me.guard == s.me.guard && CloserMoves(s, t)
            && (RetrySame(s, t) || RetryLaunch(s, t))
  {
    match s.redo.pc
    case Guarded => if out.Good? {} else {}
    case RetryOpened(p) => if out.Good? {} else {}
    case RetryAborting(p, pending) => KilledGrown(s.procs, p, false); if pending {} else {}
    case RetryWritten(p) => KilledGrown(s.procs, p, out.Good?);
    case _ =>
  }

  lemma RetryPlaced(s: State, out: Outcome)
    requires Placed(s) && Tidy(RetryStep(s, out))
    ensures Placed(RetryStep(s, out))
  {
    if !s.redo.pc.Idle? {
      NothingLiveAfterWait(s);
      RetrySteps(s, out);
      SameEpochsPlaced(s, RetryStep(s, out));
    }
  }

  lemma CleanupSteps(s: State)
    ensures var t := CleanupStep(s);
            && t.epochs == s.epochs && SamePlace(s.me, t.me) && t.me.guard == s.me.guard && CloserMoves(s, t)
            && t.procs == s.procs && (s.redo.pc.Idle? || t.redo == s.redo)
  {
  }

  lemma CleanupPlaced(s: State)
    requires Placed(s) && Tidy(CleanupStep(s))
    ensures Placed(CleanupStep(s))
  {
    CleanupSteps(s);
    SameEpochsPlaced(s, CleanupStep(s));
  }

  lemma OtherSteps(s: State, a: Action)
    requires Shapes(s)
    requires a.ProcessDies? || a.SetTerminal? || a.MarkClosed? || a.Claim? || a.FinishClose? || a.StartRecovery? || a.RecoveryMoves?
             || a.Publish? || a.Forget? || a.Transfer? || a.LateWrite?
    ensures var t := Step(s, a);
            && t.epochs == s.epochs && SamePlace(s.me, t.me) && t.me.guard == s.me.guard && CloserMoves(s, t) && RetrySame(s, t)
  {
    match a
    case ProcessDies => if |s.procs| > 0 { KilledGrown(s.procs, |s.procs| - 1, false); }
    case _ =>
  }

  lemma OtherPlaced(s: State, a: Action)
    requires Placed(s) && Tidy(Step(s, a))
    requires a.ProcessDies? || a.SetTerminal? || a.MarkClosed? || a.Claim? || a.FinishClose? || a.StartRecovery? || a.RecoveryMoves?
             || a.Publish? || a.Forget? || a.Transfer? || a.LateWrite?
    ensures Placed(Step(s, a))
  {
    OtherSteps(s, a);
    SameEpochsPlaced(s, Step(s, a));
  }

  lemma RoundsPlaced(s: State, a: Action)
    requires Placed(s) && Tidy(RoundAction(s, a))
    ensures Placed(RoundAction(s, a))
  {
    if HasCurrent(s) {
      var i := s.me.epoch.value;
      var f := Effect(RoundStep(s.epochs[i], a), s.me, s.procs);
      assert EpochOk(s.me, s.shut.closer, |s.epochs|, Vacant(s.epochs), i, s.epochs[i], s.procs);
      MovedPlaced(s, i, f);
    }
  }

  lemma FreshOk(m: Session, c: Closer, len: nat, ps: seq<Proc>, e: Epoch)
    requires e == PLACEHOLDER && len > 0 && c.NotClosing? && !m.status.closed && m.epoch == Some(len - 1)
    requires m.retiring.None? || m.retiring == Some(len - 2)
    ensures EpochOk(m, c, len, true, len - 1, e, ps)
  {
  }

  lemma StartedFreshOk(m: Session, len: nat, ps: seq<Proc>, e: Epoch)
    requires e.starter.Acquire? && e.(generation := 0, starter := Unstarted) == PLACEHOLDER
    requires len > 0 && !m.status.closed && m.epoch == Some(len - 1) && m.retiring.None?
    ensures EpochOk(m, NotClosing, len, false, len - 1, e, ps)
  {
  }

  /** startEpoch replaces the placeholder, once the epoch before it has been aborted. */
  lemma SupersededOk(m: Session, n: Session, len: nat, j: nat, e: Epoch, ps: seq<Proc>)
    requires EpochOk(m, NotClosing, len, true, j, e, ps) && j < len && !m.status.closed && m.epoch == Some(len - 1)
    requires n.status == m.status && n.claim == m.claim && n.epoch == Some(len) && n.retiring.None? && m.retiring.None?
    requires j + 1 == len ==> e.starter.Unstarted?
    requires j + 2 == len ==> e.retire.Replaced? || e.retire.NotRetired?
    ensures EpochOk(n, NotClosing, len + 1, false, j, e, ps)
  {
  }

  lemma RetiringPlace(s: State)
    requires EpochsOk(s)
    ensures s.me.retiring.Some? && s.me.retiring.value < |s.epochs| ==>
      s.me.retiring.value + 2 == |s.epochs| && Vacant(s.epochs) && !s.epochs[s.me.retiring.value].retire.Replaced?
  {
    if s.me.retiring.Some? && s.me.retiring.value < |s.epochs| {
      var i := s.me.retiring.value;
      assert EpochOk(s.me, s.shut.closer, |s.epochs|, Vacant(s.epochs), i, s.epochs[i], s.procs);
    }
  }

  lemma StartedEpochs(s: State)
    requires EpochsOk(s) && SessionShape(s.me, s.shut.closer, |s.epochs|) && Started(s) != s && s.me.retiring.None?
    requires s.me.epoch == Some(|s.epochs| - 1)
    ensures EpochsOk(Started(s))
  {
    var t, n := Started(s), |s.epochs|;
    StartedFreshOk(t.me, n + 1, s.procs, t.epochs[n]);
    forall j | 0 <= j < n ensures EpochOk(t.me, NotClosing, n + 1, false, j, t.epochs[j], s.procs) {
      assert EpochOk(s.me, s.shut.closer, n, Vacant(s.epochs), j, s.epochs[j], s.procs);
      SupersededOk(s.me, t.me, n, j, s.epochs[j], s.procs);
    }
  }

  lemma StartedPlaced(s: State)
    requires Placed(s) && Tidy(Started(s))
    ensures Placed(Started(s))
  {
    if Started(s) != s {
      StartedAlone(s);
      StartedEpochs(s);
      StartedLive(s);
    }
  }

  /** Nothing is being retired any more when a placeholder is started. */
  lemma StartedAlone(s: State)
    requires EpochsOk(s) && SessionShape(s.me, s.shut.closer, |s.epochs|) && Started(s) != s
    requires s.me.epoch.Some? ==> s.me.epoch.value + 1 == |s.epochs|
    ensures s.me.retiring.None? && s.me.epoch == Some(|s.epochs| - 1)
    ensures Started(s).me.epoch == Some(|Started(s).epochs| - 1)
  {
    RetiringPlace(s);
  }

  lemma StartedLive(s: State)
    requires LiveOk(s) && HomesOk(s) && EpochsOk(s) && Started(s) != s
    ensures LiveOk(Started(s)) && HomesOk(Started(s))
  {
    var t, n := Started(s), |s.epochs|;
    assert forall j :: 0 <= j < n ==> t.epochs[j] == s.epochs[j];
    if |s.procs| > 0 && s.procs[|s.procs| - 1].fate.Live? && s.procs[|s.procs| - 1].home.OfEpoch? {
      var j := s.procs[|s.procs| - 1].home.index;
      assert EpochOk(s.me, s.shut.closer, n, Vacant(s.epochs), j, s.epochs[j], s.procs);
      assert Keeps(s.me, j, s.epochs[j], |s.procs| - 1);
    }
  }

  /** beginNextRound puts a placeholder behind the epoch it retires. */
  lemma RetiredOk(m: Session, n: Session, len: nat, j: nat, e: Epoch, ps: seq<Proc>)
    requires EpochOk(m, NotClosing, len, false, j, e, ps) && j < len && !m.status.closed && m.epoch == Some(len - 1)
    requires n.status == m.status && n.claim == m.claim && n.epoch == Some(len) && n.retiring == Some(len - 1) && len > 0
    requires j + 1 == len ==> e.life.Interrupted?
    ensures EpochOk(n, NotClosing, len + 1, true, j, if j + 1 == len then e.(retire := Claimed) else e, ps)
  {
  }

  lemma NextRoundEpochs(s: State)
    requires EpochsOk(s) && SessionShape(s.me, s.shut.closer, |s.epochs|) && NextRound(s) != s && s.me.epoch == Some(|s.epochs| - 1)
    ensures EpochsOk(NextRound(s)) && s.me.retiring.None?
  {
    var t, n := NextRound(s), |s.epochs|;
    assert EpochOk(s.me, s.shut.closer, n, Vacant(s.epochs), n - 1, s.epochs[n - 1], s.procs);
    RetiringPlace(s);
    assert PLACEHOLDER == t.epochs[n];
    FreshOk(t.me, NotClosing, n + 1, s.procs, t.epochs[n]);
    forall j | 0 <= j < n ensures EpochOk(t.me, NotClosing, n + 1, true, j, t.epochs[j], s.procs) {
      assert EpochOk(s.me, s.shut.closer, n, Vacant(s.epochs), j, s.epochs[j], s.procs);
      RetiredOk(s.me, t.me, n, j, s.epochs[j], s.procs);
    }
  }

  lemma NextRoundPlaced(s: State)
    requires Placed(s) && Tidy(NextRound(s))
    ensures Placed(NextRound(s))
  {
    if NextRound(s) != s {
      NextRoundEpochs(s);
      NextRoundLive(s);
    }
  }

  lemma NextRoundLive(s: State)
    requires LiveOk(s) && HomesOk(s) && NextRound(s) != s && s.me.retiring.None?
    ensures LiveOk(NextRound(s)) && HomesOk(NextRound(s))
  {
    var t, n := NextRound(s), |s.epochs|;
    if |s.procs| > 0 && s.procs[|s.procs| - 1].fate.Live? && s.procs[|s.procs| - 1].home.OfEpoch? {
      var j := s.procs[|s.procs| - 1].home.index;
      assert Keeps(s.me, j, s.epochs[j], |s.procs| - 1);
    }
  }

  lemma DetachedOk(m: Session, n: Session, len: nat, free: bool, j: nat, e: Epoch, ps: seq<Proc>)
    requires EpochOk(m, NotClosing, len, free, j, e, ps) && m.status.closed
    requires n.status == m.status && n.claim == m.claim && n.epoch.None? && n.retiring.None?
    ensures EpochOk(n, Closing, len, free, j, if m.epoch == Some(j) || m.retiring == Some(j) then e.(stop := Queued) else e, ps)
  {
  }

  lemma EnqueuedAt(es: seq<Epoch>, a: Option<nat>, b: Option<nat>, j: nat)
    requires j < |es|
    ensures var fs := Enqueue(Enqueue(es, a), b);
            |fs| == |es| && fs[j] == if a == Some(j) || b == Some(j) then es[j].(stop := Queued) else es[j]
  {
  }

  predicate Detaches(s: State) {
    s.me.claim.Some? && s.me.status.closed && s.shut.closer.NotClosing?
  }

  lemma DetachEpochs(s: State)
    requires EpochsOk(s) && Detaches(s)
    ensures var t := DetachStep(s);
      && |t.epochs| == |s.epochs| && EpochsOk(t)
      && (forall j :: 0 <= j < |s.epochs| ==>
            t.epochs[j] == if s.me.epoch == Some(j) || s.me.retiring == Some(j) then s.epochs[j].(stop := Queued) else s.epochs[j])
  {
    var t, n := DetachStep(s), |s.epochs|;
    forall j | 0 <= j < n
      ensures |t.epochs| == n
      ensures t.epochs[j] == if s.me.epoch == Some(j) || s.me.retiring == Some(j) then s.epochs[j].(stop := Queued) else s.epochs[j]
    {
      EnqueuedAt(s.epochs, s.me.epoch, s.me.retiring, j);
    }
    if n > 0 { EnqueuedAt(s.epochs, s.me.epoch, s.me.retiring, n - 1); }
    var free := Vacant(s.epochs);
    assert Vacant(t.epochs) == free;
    forall j | 0 <= j < n ensures EpochOk(t.me, Closing, n, free, j, t.epochs[j], s.procs) {
      DetachedOk(s.me, t.me, n, free, j, s.epochs[j], s.procs);
    }
  }

  lemma DetachPlaced(s: State)
    requires Placed(s) && Tidy(DetachStep(s))
    ensures Placed(DetachStep(s))
  {
    if DetachStep(s) != s {
      DetachEpochs(s);
      DetachLive(s, DetachStep(s));
    }
  }

  lemma DetachLive(s: State, t: State)
    requires LiveOk(s) && HomesOk(s) && t.procs == s.procs && t.redo == s.redo && t.shut.cleanup == s.shut.cleanup && |t.epochs| == |s.epochs|
    requires forall j :: 0 <= j < |s.epochs| ==>
      t.epochs[j] == if s.me.epoch == Some(j) || s.me.retiring == Some(j) then s.epochs[j].(stop := Queued) else s.epochs[j]
    ensures LiveOk(t) && HomesOk(t)
  {
    if |s.procs| > 0 && s.procs[|s.procs| - 1].fate.Live? && s.procs[|s.procs| - 1].home.OfEpoch? {
      var j := s.procs[|s.procs| - 1].home.index;
      assert Keeps(s.me, j, s.epochs[j], |s.procs| - 1);
    }
  }

  lemma BornEpochOk(m: Session, e: Epoch, ps: seq<Proc>)
    requires e == PLACEHOLDER && m.epoch == Some(0) && m.retiring.None?
    ensures EpochOk(m, NotClosing, 1, true, 0, e, ps)
  {
  }

  lemma BornPieces(s: State)
    requires |s.epochs| == 1 && s.epochs[0] == PLACEHOLDER && s.me.epoch == Some(0) && s.me.retiring.None? && s.shut.closer.NotClosing?
    requires |s.procs| <= 1 && (|s.procs| == 1 ==> s.procs[0] == OWED)
    ensures EpochsOk(s) && LiveOk(s) && HomesOk(s)
  {
    BornEpochOk(s.me, s.epochs[0], s.procs);
  }

  lemma BornPlaced(inherits: bool)
    ensures Placed(NewSession(inherits))
  {
    BornAccounted(inherits);
    AccountedTidy(NewSession(inherits));
    BornPieces(NewSession(inherits));
  }

  lemma StarterGoes(s: State, i: nat, out: Outcome)
    requires Placed(s) && Tidy(Step(s, StarterMoves(i, out)))
    ensures Placed(Step(s, StarterMoves(i, out)))
  {
    if i < |s.epochs| { StarterMovesPlaced(s, i, out); }
  }

  lemma WaiterGoes(s: State, i: nat, ok: bool)
    requires Placed(s) && Tidy(Step(s, WaiterMoves(i, ok)))
    ensures Placed(Step(s, WaiterMoves(i, ok)))
  {
    if i < |s.epochs| { WaiterMovesPlaced(s, i, ok); }
  }

  lemma RetireGoes(s: State, i: nat)
    requires Placed(s) && Tidy(Step(s, RetireMoves(i)))
    ensures Placed(Step(s, RetireMoves(i)))
  {
    if i < |s.epochs| { RetireMovesPlaced(s, i); }
  }

  lemma StopGoes(s: State, i: nat, ok: bool)
    requires Placed(s) && Tidy(Step(s, StopMoves(i, ok)))
    ensures Placed(Step(s, StopMoves(i, ok)))
  {
    if i < |s.epochs| { StopMovesPlaced(s, i, ok); }
  }

  lemma StartGoes(s: State)
    requires Placed(s) && Tidy(Step(s, StartEpoch))
    ensures Placed(Step(s, StartEpoch))
  {
    StartedPlaced(s);
  }

  lemma NextRoundGoes(s: State, t: State)
    requires Placed(s) && Tidy(t) && t == NextRound(s)
    ensures Placed(t)
  {
    NextRoundPlaced(s);
  }

  lemma DetachGoes(s: State)
    requires Placed(s) && Tidy(Step(s, Detach))
    ensures Placed(Step(s, Detach))
  {
    DetachPlaced(s);
  }

  lemma RoundGoes(s: State, a: Action)
    requires Placed(s) && Tidy(Step(s, a)) && (a.PluginReady? || a.RoundReserved? || a.Interrupt?)
    ensures Placed(Step(s, a))
  {
    RoundsPlaced(s, a);
  }

  lemma StepPlaced(s: State, a: Action)
    requires Placed(s) && Tidy(Step(s, a))
    ensures Placed(Step(s, a))
  {
    if a.StarterMoves? {
      StarterGoes(s, a.i, a.out);
    } else if a.WaiterMoves? {
      WaiterGoes(s, a.i, a.ok);
    } else if a.RetireMoves? {
      RetireGoes(s, a.i);
    } else if a.StopMoves? {
      StopGoes(s, a.i, a.ok);
    } else if a.StartEpoch? {
      StartGoes(s);
    } else if a.BeginNextRound? {
      NextRoundGoes(s, Step(s, a));
    } else if a.Detach? {
      DetachGoes(s);
    } else if a.PluginReady? || a.RoundReserved? || a.Interrupt? {
      RoundGoes(s, a);
    } else if a.CleanupMoves? {
      CleanupPlaced(s);
    } else if a.RetryMoves? {
      RetryPlaced(s, a.out);
    } else {
      OtherPlaced(s, a);
    }
  }

  lemma {:induction false} ReachPlaced(t: Trace)
    ensures Placed(Reach(t))
  {
    match t
    case Born(inherits) => BornPlaced(inherits);
    case After(before, action) =>
      ReachPlaced(before);
      ReachAccounted(t);
      AccountedTidy(Reach(t));
      StepPlaced(Reach(before), action);
  }
}
