/** One plugin process and those who stop it, as a machine of steps: callers of Cancel and Abort, the body that the
    first of them runs, the goroutine that writes the cancel record, the one that waits for the exit, and the reader.
    What it comes to is the process of the session model, which takes Cancel and Abort as one step at their return. */
module PeerProcess {
  import opened Prelude
  import L = PeerLifecycle

  datatype Call = CancelCall | AbortCall

  datatype Caller = Calling(call: Call) | Owner(call: Call) | Returned(call: Call, answer: bool)

  datatype Mode = NotStopped | Cancelling | Aborting

  /** Where the body of the once is. `clean` is what it saw in the first wait. */
  datatype Body =
    | NotBegun
    | Grace | Terminating | TermWait | Forcing | ForceWait | Sweeping(clean: bool) | AwaitWrite(clean: bool) | Polling
    | Killing | KillWait
    | Finished

  /** The goroutine that writes the cancel record. */
  datatype Write = NoWrite | InFlight | Done(ok: bool)

  /** `exit` says whether the process ended cleanly, once it has ended; `early` that it had before anyone stopped it;
      `said` that the reader has seen the plugin say it was cancelled. */
  datatype State = State(
    mode: Mode, body: Body, applied: bool, write: Write, exit: Option<bool>, early: bool, said: bool, stdinOpen: bool,
    terminated: bool, swept: bool, bodies: nat, callers: seq<Caller>)

  datatype Action =
    | Calls(call: Call) | CallerMoves(k: nat) | BodyMoves(timeout: bool) | WriteEnds(ok: bool) | Exits(clean: bool) | Says

  const START := State(NotStopped, NotBegun, false, NoWrite, None, false, false, true, false, false, 0, [])

  function Answer(s: State, call: Call): bool {
    call.CancelCall? && s.mode.Cancelling? && s.applied
  }

  /** The once: the first caller runs the body, the others wait for its end. */
  function CallerStep(s: State, k: nat): State {
    if k >= |s.callers| then s
    else
      var c := s.callers[k];
      match c
      case Calling(call) =>
        if s.body.NotBegun? then
          s.(mode := if call.CancelCall? then Cancelling else Aborting, body := if call.CancelCall? then Grace else Killing,
             write := if call.CancelCall? then InFlight else s.write, early := s.exit.Some?, bodies := s.bodies + 1,
             callers := s.callers[k := Owner(call)])
        else if s.body.Finished? then s.(callers := s.callers[k := Returned(call, Answer(s, call))])
        else s
      case Owner(call) => if s.body.Finished? then s.(callers := s.callers[k := Returned(call, Answer(s, call))]) else s
      case Returned(_, _) => s
  }

  /** cancelWithin and abortWithin; a wait ends with the exit or with its timer. */
  function BodyStep(s: State, timeout: bool): State {
    match s.body
    case NotBegun => s
    case Grace =>
      if timeout then s.(body := Terminating) else if s.exit.Some? then s.(body := Sweeping(s.exit.value)) else s
    case Terminating => s.(stdinOpen := false, terminated := true, body := TermWait)
    case TermWait => if timeout then s.(body := Forcing) else if s.exit.Some? then s.(body := Sweeping(false)) else s
    case Forcing => s.(body := ForceWait)
    case ForceWait => if timeout || s.exit.Some? then s.(body := Sweeping(false)) else s
    case Sweeping(clean) => s.(swept := true, body := AwaitWrite(clean))
    case AwaitWrite(clean) =>
      if timeout then s.(body := Finished)
      else if !s.write.Done? then s
      else if !s.write.ok || !clean then s.(body := Finished)
      else s.(body := Polling)
    case Polling => if s.said || timeout then s.(applied := s.said, body := Finished) else s
    case Killing => s.(stdinOpen := false, swept := true, body := KillWait)
    case KillWait => if timeout || s.exit.Some? then s.(body := Finished) else s
    case Finished => s
  }

  function Step(s: State, a: Action): State {
    match a
    case Calls(call) => s.(callers := s.callers + [Calling(call)])
    case CallerMoves(k) => CallerStep(s, k)
    case BodyMoves(timeout) => BodyStep(s, timeout)
    // a pipe that is closed, or that nobody reads any more, refuses the record
    case WriteEnds(ok) => if s.write.InFlight? then s.(write := Done(ok && s.stdinOpen && s.exit.None?)) else s
    case Exits(clean) => if s.exit.None? then s.(exit := Some(clean)) else s
    case Says => s.(said := true)
  }

  datatype Run = Begin | Then(before: Run, action: Action)

  function Reach(r: Run): State {
    match r case Begin => START case Then(before, a) => Step(Reach(before), a)
  }

  // ----- the invariant -----

  predicate OfCancel(b: Body) {
    !b.NotBegun? && !b.Killing? && !b.KillWait? && !b.Finished?
  }

  predicate CallerOk(s: State, c: Caller) {
    match c
    case Calling(_) => true
    case Owner(call) => !s.body.NotBegun? && s.mode == (if call.CancelCall? then Cancelling else Aborting)
    case Returned(call, answer) => s.body.Finished? && answer == Answer(s, call)
  }

  /** A clean exit in time was seen before anyone was told to terminate; the write came before the exit. */
  predicate BodyOk(s: State) {
    && (s.body.NotBegun? <==> s.mode.NotStopped?) && s.bodies == (if s.body.NotBegun? then 0 else 1)
    && (s.mode.NotStopped? ==> s.write.NoWrite? && !s.early && !s.terminated && !s.swept && !s.applied)
    && (s.body.Grace? ==> !s.terminated && !s.applied)
    && ((s.body.Sweeping? || s.body.AwaitWrite?) && s.body.clean ==> s.exit == Some(true) && !s.terminated)
    && (s.body.Polling? ==> s.exit == Some(true) && !s.terminated && s.write == Done(true))
    && (OfCancel(s.body) ==> s.mode.Cancelling? && !s.applied)
    && (s.body.Killing? || s.body.KillWait? ==> s.mode.Aborting? && !s.applied)
    && (s.body.AwaitWrite? || s.body.Polling? || s.body.KillWait? || s.body.Finished? ==> s.swept)
    && (s.applied ==> s.body.Finished? && s.mode.Cancelling? && s.write == Done(true) && s.exit == Some(true) && s.said && !s.terminated)
    && (s.early ==> s.exit.Some? && s.write != Done(true))
  }

  predicate Inv(s: State) {
    BodyOk(s) && forall k :: 0 <= k < |s.callers| ==> CallerOk(s, s.callers[k])
  }

  lemma CallerKeeps(s: State, k: nat)
    requires Inv(s)
    ensures Inv(CallerStep(s, k))
  {
    if k < |s.callers| && s.callers[k].Calling? && s.body.NotBegun? {
      assert forall j :: 0 <= j < |s.callers| ==> s.callers[j].Calling?;
    }
  }

  lemma CancelBodyKeeps(s: State, timeout: bool)
    requires BodyOk(s) && OfCancel(s.body)
    ensures BodyOk(BodyStep(s, timeout))
  {
    if s.body.Grace? || s.body.Terminating? || s.body.TermWait? {} else if s.body.Forcing? || s.body.ForceWait? {} else {}
  }

  lemma BodyKeeps(s: State, timeout: bool)
    requires Inv(s)
    ensures Inv(BodyStep(s, timeout))
  {
    if OfCancel(s.body) { CancelBodyKeeps(s, timeout); }
    CallersStay(s, BodyStep(s, timeout));
  }

  lemma CallersStay(s: State, n: State)
    requires Inv(s) && n.callers == s.callers && n.mode == s.mode && (n.body.NotBegun? <==> s.body.NotBegun?)
    requires s.body.Finished? ==> n == s
    ensures forall k :: 0 <= k < |n.callers| ==> CallerOk(n, n.callers[k])
  {
    forall k | 0 <= k < |n.callers| ensures CallerOk(n, n.callers[k]) { assert CallerOk(s, s.callers[k]); }
  }

  lemma StepKeeps(s: State, a: Action)
    requires Inv(s)
    ensures Inv(Step(s, a))
  {
    match a
    case Calls(call) =>
    case CallerMoves(k) => CallerKeeps(s, k);
    case BodyMoves(timeout) => BodyKeeps(s, timeout);
    case WriteEnds(ok) => forall k | 0 <= k < |s.callers| ensures CallerOk(Step(s, a), s.callers[k]) { assert CallerOk(s, s.callers[k]); }
    case Exits(clean) => forall k | 0 <= k < |s.callers| ensures CallerOk(Step(s, a), s.callers[k]) { assert CallerOk(s, s.callers[k]); }
    case Says => forall k | 0 <= k < |s.callers| ensures CallerOk(Step(s, a), s.callers[k]) { assert CallerOk(s, s.callers[k]); }
  }

  lemma {:induction false} ReachKeeps(r: Run)
    ensures Inv(Reach(r))
  {
    match r
    case Begin =>
    case Then(before, a) =>
      ReachKeeps(before);
      StepKeeps(Reach(before), a);
  }

  // ----- what a Cancel may promise -----

  predicate Answered(s: State, k: nat, call: Call) {
    k < |s.callers| && s.callers[k].Returned? && s.callers[k].call == call
  }

  /** A Cancel that returns true: the plugin took the record, said so, and left by itself, cleanly and unprompted,
      before the process group was swept. */
  lemma {:induction false} AppliedMeans(r: Run, k: nat)
    requires Answered(Reach(r), k, CancelCall) && Reach(r).callers[k].answer
    ensures var s := Reach(r); s.mode.Cancelling? && s.write == Done(true) && s.exit == Some(true) && s.said && !s.terminated && s.swept
  {
    ReachKeeps(r);
    assert CallerOk(Reach(r), Reach(r).callers[k]);
  }

  /** Whoever stops the process, the body runs once, all Cancels agree, and after an Abort that came first none
      succeeds; when any stopper is back the whole process group has been swept. */
  lemma {:induction false} StoppedOnce(r: Run, k: nat, l: nat, call: Call)
    requires Answered(Reach(r), k, CancelCall) && Answered(Reach(r), l, call)
    ensures Reach(r).bodies == 1 && Reach(r).swept
    ensures call.CancelCall? ==> Reach(r).callers[k].answer == Reach(r).callers[l].answer
    ensures Reach(r).mode.Aborting? ==> !Reach(r).callers[k].answer
  {
    ReachKeeps(r);
    assert CallerOk(Reach(r), Reach(r).callers[k]);
    assert CallerOk(Reach(r), Reach(r).callers[l]);
  }

  // ----- the process of the session model -----

  /** The fate of the process: decided when the stop ends, or when it dies before anyone stops it. */
  function FateOf(s: State): L.Fate {
    if s.body.Finished? then (if s.applied then L.Cancelled else L.Aborted)
    else if s.early || (s.mode.NotStopped? && s.exit.Some?) then L.Aborted
    else L.Live
  }

  function ProcOf(s: State, p: L.Proc): L.Proc {
    p.(fate := FateOf(s))
  }

  /** Every step either leaves the process of the session model alone or kills it, once. */
  lemma {:induction false} StepKills(r: Run, a: Action, p: L.Proc)
    ensures var q, n := ProcOf(Reach(r), p), ProcOf(Step(Reach(r), a), p);
            n == q || exists ok :: [n] == L.Killed([q], 0, ok)
  {
    ReachKeeps(r);
    KillsOrNot(Reach(r), a, p);
  }

  lemma KillsOrNot(s: State, a: Action, p: L.Proc)
    requires Inv(s)
    ensures var q, n := ProcOf(s, p), ProcOf(Step(s, a), p);
            n == q || exists ok :: [n] == L.Killed([q], 0, ok)
  {
    StepKeeps(s, a);
    var q, n := ProcOf(s, p), ProcOf(Step(s, a), p);
    assert n == q || (q.fate.Live? && !n.fate.Live?) by { FateMoves(s, a); }
    if n != q { assert [n] == L.Killed([q], 0, n.fate.Cancelled?); }
  }

  lemma FateMoves(s: State, a: Action)
    requires Inv(s) && Inv(Step(s, a))
    ensures FateOf(Step(s, a)) == FateOf(s) || (FateOf(s).Live? && !FateOf(Step(s, a)).Live?)
  {
    match a
    case CallerMoves(k) => if k < |s.callers| && s.callers[k].Calling? {} else {}
    case BodyMoves(timeout) => BodyFate(s, timeout);
    case _ =>
  }

  lemma BodyFate(s: State, timeout: bool)
    requires Inv(s)
    ensures FateOf(BodyStep(s, timeout)) == FateOf(s) || (FateOf(s).Live? && !FateOf(BodyStep(s, timeout)).Live?)
  {
    match s.body
    case AwaitWrite(_) =>
    case Polling =>
    case KillWait =>
    case _ =>
  }

  /** What Cancel returns is what the session model says it returns. */
  lemma {:induction false} AnswerIsCancelSaid(r: Run, k: nat, p: L.Proc, ok: bool)
    requires Answered(Reach(r), k, CancelCall)
    ensures Reach(r).callers[k].answer == L.CancelSaid([ProcOf(Reach(r), p)], 0, ok)
  {
    ReachKeeps(r);
    assert CallerOk(Reach(r), Reach(r).callers[k]);
  }
}
