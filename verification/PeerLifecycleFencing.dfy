/** Epoch fencing in every interleaving: what the goroutines of an epoch may still do once another has its place. */
module PeerLifecycleFencing {
  import opened Prelude
  import opened PeerLifecycle
  import opened PeerLifecyclePlaces
  import opened PeerLifecycleCancels

  /** What a stale goroutine leaves of the session: everything but its own accounts and the cancellation flags. */
  predicate SameSession(m: Session, n: Session) {
    && n.epoch == m.epoch && n.status == m.status && n.claim == m.claim && n.guard == m.guard
    && n.nextGeneration == m.nextGeneration && n.roundNo == m.roundNo
  }

  predicate Fenced(m: Session, i: nat, ps: seq<Proc>, f: Effect) {
    SameSession(m, f.me) && OthersStay(i, ps, f.procs)
  }

  lemma StarterFenced(m: Session, c: Closer, i: nat, e: Epoch, ps: seq<Proc>, out: Outcome)
    requires PlugOk(e, i, ps) && m.epoch != Some(i)
    ensures Fenced(m, i, ps, StarterStep(m, ps, i, e, out, c.Detached?))
  {
    StarterApart(m, c, i, e, ps, out);
    if e.starter.Acquire? || e.starter.Blocking? || e.starter.Locked? {}
    else if e.starter.Opening? || e.starter.Opened? {}
    else if e.starter.Writing? || e.starter.Wrote? {}
    else if e.starter.Discard? || e.starter.Discarding? || e.starter.Crediting? {}
    else {}
  }

  lemma WaiterFenced(m: Session, i: nat, e: Epoch, ps: seq<Proc>, ok: bool)
    requires PlugOk(e, i, ps)
    ensures Fenced(m, i, ps, WaiterStep(m, ps, e, ok))
  {
    WaiterApart(m, i, e, ps, ok);
  }

  lemma RetireFenced(m: Session, i: nat, e: Epoch, ps: seq<Proc>)
    requires PlugOk(e, i, ps)
    ensures Fenced(m, i, ps, RetireStep(m, ps, i, e))
  {
    RetireApart(m, i, e, ps);
  }

  lemma StopFenced(m: Session, i: nat, e: Epoch, ps: seq<Proc>, ok: bool)
    requires PlugOk(e, i, ps)
    ensures Fenced(m, i, ps, StopStep(m, ps, e, ok))
  {
    StopApart(m, i, e, ps, ok);
  }

  predicate OfGoroutine(a: Action) {
    a.StarterMoves? || a.WaiterMoves? || a.RetireMoves? || a.StopMoves?
  }

  /** In every run: whatever a goroutine of an epoch that is not current does next, the session stays open or closed
      as it was, its current epoch, every other epoch and every process of another epoch stay as they are. */
  lemma {:induction false} StaleIsFenced(t: Trace, a: Action)
    requires OfGoroutine(a) && a.i < |Reach(t).epochs| && Reach(t).me.epoch != Some(a.i)
    ensures var s, n := Reach(t), Step(Reach(t), a);
      && SameSession(s.me, n.me) && OthersStay(a.i, s.procs, n.procs) && |n.epochs| == |s.epochs|
      && forall j :: 0 <= j < |s.epochs| && j != a.i ==> n.epochs[j] == s.epochs[j]
  {
    ReachPlaced(t);
    StaleStep(Reach(t), a);
  }

  lemma StaleStep(s: State, a: Action)
    requires EpochsOk(s) && OfGoroutine(a) && a.i < |s.epochs| && s.me.epoch != Some(a.i)
    ensures var n := Step(s, a);
      && SameSession(s.me, n.me) && OthersStay(a.i, s.procs, n.procs) && |n.epochs| == |s.epochs|
      && forall j :: 0 <= j < |s.epochs| && j != a.i ==> n.epochs[j] == s.epochs[j]
  {
    assert EpochOk(s.me, s.shut.closer, |s.epochs|, Vacant(s.epochs), a.i, s.epochs[a.i], s.procs);
    match a
    case StarterMoves(i, out) => StarterFenced(s.me, s.shut.closer, i, s.epochs[i], s.procs, out);
    case WaiterMoves(i, ok) => WaiterFenced(s.me, i, s.epochs[i], s.procs, ok);
    case RetireMoves(i) => RetireFenced(s.me, i, s.epochs[i], s.procs);
    case StopMoves(i, ok) => StopFenced(s.me, i, s.epochs[i], s.procs, ok);
  }

  /** In particular the process that the current epoch owns is out of their reach. */
  lemma {:induction false} CurrentProcessIsSafe(t: Trace, a: Action, p: nat)
    requires OfGoroutine(a) && a.i < |Reach(t).epochs| && Reach(t).me.epoch.Some? && Reach(t).me.epoch != Some(a.i)
    requires Reach(t).me.epoch.value < |Reach(t).epochs| && Reach(t).epochs[Reach(t).me.epoch.value].plugin == Some(p)
    ensures p < |Reach(t).procs| <= |Step(Reach(t), a).procs| && Step(Reach(t), a).procs[p] == Reach(t).procs[p]
  {
    ReachPlaced(t);
    StaleIsFenced(t, a);
    OwnsAtHome(Reach(t), Reach(t).me.epoch.value, p);
  }

  lemma OwnsAtHome(s: State, i: nat, p: nat)
    requires EpochsOk(s) && i < |s.epochs| && s.epochs[i].plugin == Some(p)
    ensures p < |s.procs| && s.procs[p].home == OfEpoch(i)
  {
    assert EpochOk(s.me, s.shut.closer, |s.epochs|, Vacant(s.epochs), i, s.epochs[i], s.procs);
  }

  // ----- generations -----

  /** A started epoch has a generation of its own, above those of all epochs started before it. */
  predicate GenerationsOk(es: seq<Epoch>, next: nat) {
    && (forall i :: 0 <= i < |es| && !es[i].starter.Unstarted? ==> 1 <= es[i].generation <= next)
    && (forall i, j :: 0 <= i < j < |es| && !es[i].starter.Unstarted? && !es[j].starter.Unstarted? ==> es[i].generation < es[j].generation)
  }

  predicate SameGenerations(s: State, n: State) {
    && n.me.nextGeneration == s.me.nextGeneration && |s.epochs| <= |n.epochs|
    && (forall i :: 0 <= i < |s.epochs| ==>
          n.epochs[i].generation == s.epochs[i].generation && (n.epochs[i].starter.Unstarted? <==> s.epochs[i].starter.Unstarted?))
    && (forall i :: |s.epochs| <= i < |n.epochs| ==> n.epochs[i].starter.Unstarted?)
  }

  predicate SameGeneration(m: Session, e: Epoch, f: Effect) {
    f.e.generation == e.generation && f.me.nextGeneration == m.nextGeneration && (f.e.starter.Unstarted? <==> e.starter.Unstarted?)
  }

  lemma StarterGeneration(m: Session, c: Closer, i: nat, e: Epoch, ps: seq<Proc>, out: Outcome)
    ensures SameGeneration(m, e, StarterStep(m, ps, i, e, out, c.Detached?))
  {
    if e.starter.Acquire? || e.starter.Blocking? || e.starter.Locked? {}
    else if e.starter.Opening? || e.starter.Opened? {}
    else if e.starter.Writing? || e.starter.Wrote? {}
    else if e.starter.Discard? || e.starter.Discarding? || e.starter.Crediting? {}
    else {}
  }

  lemma OtherGeneration(m: Session, i: nat, e: Epoch, ps: seq<Proc>, ok: bool)
    ensures SameGeneration(m, e, WaiterStep(m, ps, e, ok))
    ensures SameGeneration(m, e, RetireStep(m, ps, i, e))
    ensures SameGeneration(m, e, StopStep(m, ps, e, ok))
  {
  }

  lemma GoroutineGenerations(s: State, a: Action)
    requires OfGoroutine(a)
    ensures SameGenerations(s, Step(s, a))
  {
    if a.i < |s.epochs| {
      match a
      case StarterMoves(i, out) => StarterGeneration(s.me, s.shut.closer, i, s.epochs[i], s.procs, out);
      case WaiterMoves(i, ok) => OtherGeneration(s.me, i, s.epochs[i], s.procs, ok);
      case RetireMoves(i) => OtherGeneration(s.me, i, s.epochs[i], s.procs, true);
      case StopMoves(i, ok) => OtherGeneration(s.me, i, s.epochs[i], s.procs, ok);
    }
  }

  lemma DetachGenerations(s: State)
    ensures SameGenerations(s, DetachStep(s))
  {
    if DetachStep(s) != s {
      forall j | 0 <= j < |s.epochs|
        ensures |DetachStep(s).epochs| == |s.epochs| && DetachStep(s).epochs[j].generation == s.epochs[j].generation
        ensures DetachStep(s).epochs[j].starter == s.epochs[j].starter
      {
        EnqueuedAt(s.epochs, s.me.epoch, s.me.retiring, j);
      }
      assert |Enqueue(Enqueue(s.epochs, s.me.epoch), s.me.retiring)| == |s.epochs|;
    }
  }

  lemma RetrySpares(s: State, out: Outcome)
    ensures RetryStep(s, out).epochs == s.epochs && RetryStep(s, out).me.nextGeneration == s.me.nextGeneration
  {
  }

  lemma CleanupKeepsEpochs(s: State)
    ensures CleanupStep(s).epochs == s.epochs && CleanupStep(s).me.nextGeneration == s.me.nextGeneration
  {
  }

  lemma OtherGenerations(s: State, a: Action)
    requires !OfGoroutine(a) && !a.StartEpoch?
    ensures SameGenerations(s, Step(s, a))
  {
    if a.Detach? {
      DetachGenerations(s);
    } else if a.RetryMoves? {
      RetrySpares(s, a.out);
    } else if a.CleanupMoves? {
      CleanupKeepsEpochs(s);
    } else {
    }
  }

  lemma StartedGenerations(s: State)
    requires GenerationsOk(s.epochs, s.me.nextGeneration)
    ensures GenerationsOk(Started(s).epochs, Started(s).me.nextGeneration)
  {
  }

  lemma StepGenerations(s: State, a: Action)
    requires GenerationsOk(s.epochs, s.me.nextGeneration)
    ensures GenerationsOk(Step(s, a).epochs, Step(s, a).me.nextGeneration)
  {
    if OfGoroutine(a) { GoroutineGenerations(s, a); } else if a.StartEpoch? { StartedGenerations(s); } else { OtherGenerations(s, a); }
  }

  /** Generations of started epochs strictly increase, in every run. */
  lemma {:induction false} GenerationsIncrease(t: Trace)
    ensures GenerationsOk(Reach(t).epochs, Reach(t).me.nextGeneration)
  {
    match t
    case Born(_) =>
    case After(before, a) =>
      GenerationsIncrease(before);
      StepGenerations(Reach(before), a);
  }
}
