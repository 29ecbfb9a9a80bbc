/** A session record changes only finitely often, and a signal that was accepted once is never
    accepted again. */
module PeerHubProgress {
  import opened Prelude
  import opened PeerHubTypes
  import opened PeerHubSteps
  import opened PeerHubInvariant
  import opened PeerHubEvolution
  import opened PeerHubRun
  import opened PeerHubSafety

  // ----- the measure -----

  function Rank(p: Phase): nat {
    match p
    case WaitingApproval => 5
    case Interrupted => 5
    case Signaling => 4
    case Connecting => 3
    case Active => 2
    case Completed => 1
    case Cancelled => 1
    case Failed => 1
    case Expired => 0
  }

  function Missing<T>(p: Sides<Option<T>>): nat {
    (if p.source.None? then 1 else 0) + (if p.target.None? then 1 else 0)
  }

  function Unheard(last: Option<SeqNo>): nat {
    if last.None? then SEQ_MAX + 1 else SEQ_MAX - last.value
  }

  /** What is still ahead in the current round. The phase counts double, so that losing the ticket
      at expiry does not undo the step. */
  function AheadInRound(r: Record): nat {
    2 * Rank(r.phase) + Missing(r.approvals) + Unheard(r.round.lastSeq.initiator) + Unheard(r.round.lastSeq.responder)
    + (if r.ticket.None? then 1 else 0) + Missing(r.active) + Missing(r.completed)
  }

  /** More than any round can hold. */
  const ROUND_SPAN: nat := 10 + 6 + 2 * (SEQ_MAX + 1) + 1 + 1

  function Ahead(r: Record): nat
    requires r.round.no <= MAX_ROUNDS
  {
    ROUND_SPAN * (MAX_ROUNDS - r.round.no) + AheadInRound(r)
  }

  lemma AheadInRoundBounded(r: Record)
    ensures AheadInRound(r) < ROUND_SPAN
  {
  }

  predicate Progress(r: Record, s: Record)
    requires r.round.no <= MAX_ROUNDS && s.round.no <= MAX_ROUNDS
  {
    s == r || Ahead(s) < Ahead(r)
  }

  lemma NewRoundProgress(r: Record, s: Record)
    requires s.round.no == r.round.no + 1 <= MAX_ROUNDS
    ensures Ahead(s) < Ahead(r)
  {
    AheadInRoundBounded(s);
  }

  lemma InterruptProgress(r: Record, side: Side, freshRound: string, now: int)
    requires RecordInv(r) && ApplyInterrupt(r, side, freshRound, now).Ok?
    ensures ApplyInterrupt(r, side, freshRound, now).value.record.round.no <= MAX_ROUNDS
    ensures Progress(r, ApplyInterrupt(r, side, freshRound, now).value.record)
  {
    if r.round.no < MAX_ROUNDS {
      NewRoundProgress(r, ApplyInterrupt(r, side, freshRound, now).value.record);
    }
  }

  lemma EventProgress(r: Record, caller: Caller, roundId: string, event: Option<EventKind>, code: Option<string>, freshRound: string, now: int)
    requires RecordInv(r) && ApplyEvent(r, caller, roundId, event, code, freshRound, now).Ok?
    ensures ApplyEvent(r, caller, roundId, event, code, freshRound, now).value.record.round.no <= MAX_ROUNDS
    ensures Progress(r, ApplyEvent(r, caller, roundId, event, code, freshRound, now).value.record)
  {
    if event == Some(ActiveEvent) {
      ActiveProgress(r, Participant(r.card, caller).value, roundId, now);
    } else if event == Some(CompleteEvent) {
      CompleteProgress(r, Participant(r.card, caller).value, roundId, now);
    } else if event == Some(InterruptEvent) {
      InterruptProgress(r, Participant(r.card, caller).value, freshRound, now);
    }
  }

  lemma ActiveProgress(r: Record, side: Side, roundId: string, now: int)
    requires RecordInv(r) && r.round.id == roundId && ApplyActive(r, side, roundId, now).Ok?
    ensures ApplyActive(r, side, roundId, now).value.record.round == r.round
    ensures Progress(r, ApplyActive(r, side, roundId, now).value.record)
  {
    assert SideCoupled(r, side);
  }

  lemma CompleteProgress(r: Record, side: Side, roundId: string, now: int)
    requires RecordInv(r) && r.round.id == roundId && ApplyComplete(r, side, roundId, now).Ok?
    ensures ApplyComplete(r, side, roundId, now).value.record.round == r.round
    ensures Progress(r, ApplyComplete(r, side, roundId, now).value.record)
  {
    assert SideCoupled(r, side);
  }

  lemma AuthorizeProgress(r: Record, caller: Caller, side: Side, roundId: string, sessionHash: Token, roundHash: Token, now: int)
    requires RecordInv(r) && ApplyAuthorize(r, caller, side, roundId, sessionHash, roundHash, now).Ok?
    ensures ApplyAuthorize(r, caller, side, roundId, sessionHash, roundHash, now).value.record.round == r.round
    ensures Progress(r, ApplyAuthorize(r, caller, side, roundId, sessionHash, roundHash, now).value.record)
  {
    assert SideCoupled(r, side);
  }

  lemma SignalProgress(r: Record, caller: Caller, role: SignalRole, roundId: string, s: Signal, now: int)
    requires RecordInv(r) && ApplySignal(r, caller, role, roundId, s, now).Ok?
    ensures ApplySignal(r, caller, role, roundId, s, now).value.record.round.no == r.round.no
    ensures Progress(r, ApplySignal(r, caller, role, roundId, s, now).value.record)
  {
  }

  /** Every accepted request either leaves the record as it is or brings it strictly forward. */
  lemma ApplyProgress(r: Record, caller: Caller, req: Request, now: int)
    requires RecordInv(r) && Apply(r, caller, req, now).Ok?
    ensures Apply(r, caller, req, now).value.record.round.no <= MAX_ROUNDS
    ensures Progress(r, Apply(r, caller, req, now).value.record)
  {
    match req
    case Authorize(side, roundId, sessionHash, roundHash) => AuthorizeProgress(r, caller, side, roundId, sessionHash, roundHash, now);
    case SendSignal(role, roundId, signal) => SignalProgress(r, caller, role, roundId, signal, now);
    case Report(roundId, event, failureCode, freshRound) => EventProgress(r, caller, roundId, event, failureCode, freshRound, now);
  }

  lemma PerformProgress(w: World, a: Action, now: int)
    requires w.hub.session.Some? && RecordInv(w.hub.session.value)
    ensures var next := Perform(w, a, now);
            next.hub.session.Some? ==>
              next.hub.session.value.round.no <= MAX_ROUNDS && Progress(w.hub.session.value, next.hub.session.value)
  {
    match a
    case DoMutate(caller, req) =>
      if Mutated(w, caller, req, now) != w { ApplyProgress(w.hub.session.value, caller, req, now); }
    case DoCreate(caller, creation, roundId) => CreateSpares(w, caller, creation, roundId, now);
    case DoSign(errand, signedAt) => SignProgress(w, errand, signedAt, now);
    case DoAlarm => AlarmProgress(w, now);
    case _ => QuietSpares(w, a, now);
  }

  lemma SignProgress(w: World, e: Errand, signedAt: int, now: int)
    requires w.hub.session.Some? && RecordInv(w.hub.session.value)
    ensures var next := SignedBack(w, e, signedAt, now);
            next.hub.session.Some? && next.hub.session.value.round.no <= MAX_ROUNDS && Progress(w.hub.session.value, next.hub.session.value)
  {
  }

  lemma AlarmProgress(w: World, now: int)
    requires w.hub.session.Some? && RecordInv(w.hub.session.value)
    ensures var next := Alarmed(w, now);
            next.hub.session.Some? ==>
              next.hub.session.value.round.no <= MAX_ROUNDS && Progress(w.hub.session.value, next.hub.session.value)
  {
  }

  /** How often the record has changed in a run. */
  function Changes(h: History): nat {
    match h
    case Start => 0
    case Then(before, _, _) =>
      var r, s := Run(before).hub.session, Run(h).hub.session;
      Changes(before) + (if r.Some? && s.Some? && r != s then 1 else 0)
  }

  const CHANGES_MAX: nat := ROUND_SPAN * MAX_ROUNDS

  /** In no run does the record change more often than CHANGES_MAX, whatever is sent to the session. */
  lemma {:induction false} FinitelyManyChanges(h: History)
    ensures Changes(h) <= CHANGES_MAX
    ensures var s := Run(h).hub.session;
            s.Some? ==> s.value.round.no <= MAX_ROUNDS && Changes(h) + Ahead(s.value) <= CHANGES_MAX
    ensures Run(h).hub.session.None? && !Run(h).deleted ==> Changes(h) == 0
  {
    match h
    case Start =>
    case Then(before, at, action) =>
      FinitelyManyChanges(before);
      RunKeeps(before);
      AdvanceProgress(Run(before), action, at);
  }

  lemma AdvanceProgress(w: World, a: Action, at: int)
    requires CoreInv(w)
    ensures var next := Advance(w, a, at);
            && (next.hub.session.Some? ==>
                  next.hub.session.value.round.no <= MAX_ROUNDS &&
                  if w.hub.session.Some? then Progress(w.hub.session.value, next.hub.session.value)
                  else !w.deleted && Ahead(next.hub.session.value) <= CHANGES_MAX)
            && (next.deleted ==> w.deleted || w.hub.session.Some?)
            && (next.hub.session.None? && w.hub.session.Some? ==> next.deleted)
  {
    if w.clock <= at {
      if w.hub.session.Some? { PerformProgress(w, a, at); } else { FirstRecord(w, a, at); }
    }
  }

  lemma FirstRecord(w: World, a: Action, now: int)
    requires CoreInv(w) && w.hub.session.None?
    ensures var next := Perform(w, a, now);
            && (next.hub.session.Some? ==> !w.deleted && next.hub.session.value.round.no == 1 && Ahead(next.hub.session.value) <= CHANGES_MAX)
            && (next.deleted == w.deleted)
  {
    match a
    case DoCreate(caller, creation, roundId) => AheadInRoundBounded(NewRecord(creation, roundId, now));
    case DoMutate(_, _) =>
    case DoSign(_, _) =>
    case DoAlarm =>
    case _ => QuietSpares(w, a, now);
  }

  // ----- replays -----

  /** The round has heard the number, or has been left for good. */
  predicate Heard(w: World, role: SignalRole, roundId: string, seqNo: SeqNo) {
    && roundId in w.roundIds
    && (w.hub.session.Some? ==>
          var r := w.hub.session.value;
          r.round.id == roundId ==> !Exceeds(seqNo, r.round.lastSeq.Of(role)))
  }

  lemma HeardStays(w: World, a: Action, now: int, role: SignalRole, roundId: string, seqNo: SeqNo)
    requires CoreInv(w) && Heard(w, role, roundId, seqNo) && (w.hub.session.Some? || w.deleted)
    ensures Heard(Perform(w, a, now), role, roundId, seqNo)
    ensures var next := Perform(w, a, now); next.hub.session.Some? || next.deleted
  {
    match a
    case DoMutate(caller, req) => MutateHeard(w, caller, req, now, role, roundId, seqNo);
    case DoCreate(caller, creation, id) => CreateSpares(w, caller, creation, id, now);
    case DoSign(errand, signedAt) => SignHeard(w, errand, signedAt, now, role, roundId, seqNo);
    case DoAlarm => AlarmHeard(w, now, role, roundId, seqNo);
    case _ => QuietSpares(w, a, now);
  }

  lemma SignHeard(w: World, e: Errand, signedAt: int, now: int, role: SignalRole, roundId: string, seqNo: SeqNo)
    requires Heard(w, role, roundId, seqNo)
    ensures var next := SignedBack(w, e, signedAt, now);
            Heard(next, role, roundId, seqNo) && (next.hub.session.Some? <==> w.hub.session.Some?) && next.deleted == w.deleted
  {
  }

  lemma AlarmHeard(w: World, now: int, role: SignalRole, roundId: string, seqNo: SeqNo)
    requires Heard(w, role, roundId, seqNo) && (w.hub.session.Some? || w.deleted)
    ensures var next := Alarmed(w, now); Heard(next, role, roundId, seqNo) && (next.hub.session.Some? || next.deleted)
  {
  }

  lemma MutateHeard(w: World, caller: Caller, req: Request, now: int, role: SignalRole, roundId: string, seqNo: SeqNo)
    requires CoreInv(w) && Heard(w, role, roundId, seqNo)
    ensures Heard(Mutated(w, caller, req, now), role, roundId, seqNo)
    ensures w.hub.session.Some? ==> Mutated(w, caller, req, now).hub.session.Some?
  {
    if Mutated(w, caller, req, now) != w {
      var r := w.hub.session.value;
      RoundIdsGrow(r, caller, req, now);
      if Apply(r, caller, req, now).value.record.round.no == r.round.no {
        ApplyEvolves(r, caller, req, now);
        NumbersGrow(r, caller, req, now, role);
      }
    }
  }

  lemma NumbersGrow(r: Record, caller: Caller, req: Request, now: int, role: SignalRole)
    requires Apply(r, caller, req, now).Ok? && Apply(r, caller, req, now).value.record.round.no == r.round.no
    ensures forall n: SeqNo ::
      !Exceeds(n, r.round.lastSeq.Of(role)) ==> !Exceeds(n, Apply(r, caller, req, now).value.record.round.lastSeq.Of(role))
  {
    match req
    case Report(_, event, _, _) =>
      if event.Some? && event != Some(CancelEvent) {
        match event.value
        case InterruptEvent =>
        case _ =>
      }
    case _ =>
  }

  lemma {:induction false} HeardLater(p: History, h: History, role: SignalRole, roundId: string, seqNo: SeqNo)
    requires Prefix(p, h) && Heard(Run(p), role, roundId, seqNo) && (Run(p).hub.session.Some? || Run(p).deleted)
    ensures Heard(Run(h), role, roundId, seqNo) && (Run(h).hub.session.Some? || Run(h).deleted)
  {
    if p != h {
      match h
      case Then(before, at, action) =>
        HeardLater(p, before, role, roundId, seqNo);
        RunKeeps(before);
        if Run(before).clock <= at {
          HeardStays(Run(before), action, at, role, roundId, seqNo);
        }
    }
  }

  /** The signal is accepted and forwarded, rather than recognised as a repeat. */
  predicate Forwards(h: Hub, caller: Caller, role: SignalRole, roundId: string, s: Signal, at: int) {
    && Mutate(h, caller, SendSignal(role, roundId, s), at).Ok?
    && ApplySignal(h.session.value, caller, role, roundId, s, at).value != Stutter(h.session.value)
  }

  /** Once a signal has been forwarded, at any later moment of the run any signal of the same role,
      round and number is refused or changes nothing, whether or not its receipt is still kept. */
  lemma {:induction false} ReplayStutters(p: History, at: int, caller: Caller, role: SignalRole, roundId: string, s: Signal,
                       h: History, other: Caller, replay: Signal, now: int)
    requires Run(p).clock <= at && Forwards(Run(p).hub, caller, role, roundId, s, at)
    requires Prefix(Then(p, at, DoMutate(caller, SendSignal(role, roundId, s))), h)
    requires replay.seqNo == s.seqNo && Run(h).hub.session.Some?
    ensures var r := Run(h).hub.session.value;
            match ApplySignal(r, other, role, roundId, replay, now)
            case Err(_) => true
            case Ok(c) => c == Stutter(r)
  {
    var q := Then(p, at, DoMutate(caller, SendSignal(role, roundId, s)));
    RunKeeps(p);
    AcceptedIsHeard(Run(p), at, caller, role, roundId, s);
    HeardLater(q, h, role, roundId, s.seqNo);
  }

  lemma AcceptedIsHeard(w: World, at: int, caller: Caller, role: SignalRole, roundId: string, s: Signal)
    requires WorldInv(w) && Forwards(w.hub, caller, role, roundId, s, at)
    ensures var next := Mutated(w, caller, SendSignal(role, roundId, s), at);
            next.hub.session.Some? && Heard(next, role, roundId, s.seqNo)
  {
    var r := w.hub.session.value;
    assert r.round.id in w.roundIds;
  }
}
