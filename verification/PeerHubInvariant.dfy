/** The coupling between the fields of a session record, and the proof that every
    transition of the record keeps it. */
module PeerHubInvariant {
  import opened Prelude
  import opened PeerHubTypes
  import opened PeerHubSteps

  predicate Both<T>(p: Sides<Option<T>>) {
    p.source.Some? && p.target.Some?
  }

  predicate Neither<T>(p: Sides<Option<T>>) {
    p.source.None? && p.target.None?
  }

  predicate Live(p: Phase) {
    p.Connecting? || p.Active?
  }

  /** The fields of a statement that come from the record and not from the signer's clock. */
  predicate Certifies(t: Ticket, r: Record) {
    BindingComplete(r) &&
    var s := t.statement;
    s.sessionId == r.card.sessionId && s.roundId == r.round.id && s.kid == r.card.kid && s.userId == r.card.userId &&
    s.operatorId == r.card.operatorId && s.protocol == r.card.protocol && s.capability == r.card.capability &&
    s.source == r.card.endpoints.source && s.target == r.card.endpoints.target &&
    s.initiator == r.card.endpoints.Of(r.card.initiator).party &&
    s.responder == r.card.endpoints.Of(r.card.initiator.Other()).party &&
    Some(s.sourceSession) == r.bindings.source.session && Some(s.sourceRound) == r.bindings.source.round &&
    Some(s.targetSession) == r.bindings.target.session && Some(s.targetRound) == r.bindings.target.round &&
    Some(s.offerFp) == r.round.offerFp && Some(s.answerFp) == r.round.answerFp
  }

  /** An endpoint's approval, its hashes and its events all belong to the current round. */
  predicate SideCoupled(r: Record, side: Side) {
    var approval, mine := r.approvals.Of(side), r.bindings.Of(side);
    var active, completed := r.active.Of(side), r.completed.Of(side);
    && (approval.Some? <==> mine.round.Some?)
    && (approval.Some? ==> StampedIn(approval, r.round.id) && mine.session.Some?)
    && (active.Some? ==> StampedIn(active, r.round.id) && r.round.state.Answered?)
    && (completed.Some? ==> StampedIn(completed, r.round.id) && active.Some?)
    && (active.Some? && completed.None? && !r.phase.Expired? ==> r.ticket.Some?)
  }

  predicate RoundCoupled(r: Record) {
    && 1 <= r.round.no <= MAX_ROUNDS
    && (r.round.state.AwaitingOffer? <==> r.round.offerFp.None?)
    && (r.round.state.Answered? <==> r.round.answerFp.Some?)
    && (r.round.state.AwaitingOffer? ==> r.round.lastSeq == Roles(None, None) && r.round.receipts == [])
    && (!r.round.state.AwaitingOffer? ==> Both(r.approvals))
    && |r.round.receipts| <= RECEIPTS_MAX
  }

  predicate PhaseCoupled(r: Record) {
    && !r.phase.Interrupted?
    && (r.phase.WaitingApproval? ==> !Both(r.approvals) && r.round.state.AwaitingOffer?)
    && (r.phase.Signaling? ==> Both(r.approvals) && !r.round.state.Answered?)
    && (Live(r.phase) || r.phase.Completed? ==> r.round.state.Answered?)
    && (r.phase.Connecting? ==> !Both(r.active))
    && (r.phase.Active? ==> Both(r.active) && r.ticket.Some?)
    && (r.phase.Completed? ==> Both(r.completed))
    && (Both(r.completed) ==> r.phase.Completed? || r.phase.Expired?)
    && (r.phase.Expired? <==> r.gcAt.Some?)
    && (r.phase.Expired? ==> r.ticket.None?)
    && (r.phase.Failed? ==> r.failureCode.Some?)
    && (r.failureCode.Some? ==> r.phase.Failed? || r.phase.Expired?)
  }

  predicate RecordInv(r: Record) {
    && r.card.endpoints.source.party != r.card.endpoints.target.party
    && SideCoupled(r, Source) && SideCoupled(r, Target)
    && RoundCoupled(r) && PhaseCoupled(r)
    && (r.ticket.Some? ==> Certifies(r.ticket.value, r))
  }

  lemma NewRecordKeeps(c: Creation, roundId: string, now: int)
    requires c.Parsed()
    ensures RecordInv(NewRecord(c, roundId, now))
  {
  }

  lemma AuthorizeKeeps(r: Record, caller: Caller, side: Side, roundId: string, sessionHash: Token, roundHash: Token, now: int)
    requires RecordInv(r)
    requires ApplyAuthorize(r, caller, side, roundId, sessionHash, roundHash, now).Ok?
    ensures RecordInv(ApplyAuthorize(r, caller, side, roundId, sessionHash, roundHash, now).value.record)
  {
    assert SideCoupled(r, side) && SideCoupled(r, side.Other());
  }

  lemma SignalKeeps(r: Record, caller: Caller, role: SignalRole, roundId: string, s: Signal, now: int)
    requires RecordInv(r)
    requires ApplySignal(r, caller, role, roundId, s, now).Ok?
    ensures RecordInv(ApplySignal(r, caller, role, roundId, s, now).value.record)
  {
    assert SideCoupled(r, Source) && SideCoupled(r, Target);
  }

  lemma ActiveKeeps(r: Record, side: Side, roundId: string, now: int)
    requires RecordInv(r) && r.round.id == roundId && ApplyActive(r, side, roundId, now).Ok?
    ensures RecordInv(ApplyActive(r, side, roundId, now).value.record)
  {
    var next := ApplyActive(r, side, roundId, now).value.record;
    assert next.bindings == r.bindings && next.round == r.round && next.ticket == r.ticket && next.approvals == r.approvals;
    assert SideCoupled(next, Source) && SideCoupled(next, Target) by {
      match side
      case Source =>
      case Target =>
    }
    assert PhaseCoupled(next) by {
      match side
      case Source =>
      case Target =>
    }
  }

  lemma CompleteKeeps(r: Record, side: Side, roundId: string, now: int)
    requires RecordInv(r) && r.round.id == roundId && ApplyComplete(r, side, roundId, now).Ok?
    ensures RecordInv(ApplyComplete(r, side, roundId, now).value.record)
  {
    var next := ApplyComplete(r, side, roundId, now).value.record;
    assert next.bindings == r.bindings && next.round == r.round && next.ticket == r.ticket && next.approvals == r.approvals;
    CompleteCouples(r, side, roundId, now, Source);
    CompleteCouples(r, side, roundId, now, Target);
    assert PhaseCoupled(next) by {
      match side
      case Source =>
      case Target =>
    }
  }

  lemma CompleteCouples(r: Record, side: Side, roundId: string, now: int, at: Side)
    requires SideCoupled(r, at) && PhaseCoupled(r) && r.round.id == roundId && ApplyComplete(r, side, roundId, now).Ok?
    ensures SideCoupled(ApplyComplete(r, side, roundId, now).value.record, at)
  {
    match side
    case Source =>
    case Target =>
  }

  lemma InterruptKeeps(r: Record, side: Side, freshRound: string, now: int)
    requires RecordInv(r) && ApplyInterrupt(r, side, freshRound, now).Ok?
    ensures RecordInv(ApplyInterrupt(r, side, freshRound, now).value.record)
  {
    var next := ApplyInterrupt(r, side, freshRound, now).value.record;
    if r.round.no >= MAX_ROUNDS {
      assert next == r.(phase := Failed, failureCode := Some("ROUND_LIMIT"), updatedAt := now);
    } else {
      assert next == BeginRound(r, freshRound, now).(phase := WaitingApproval);
    }
  }

  lemma EventKeeps(r: Record, caller: Caller, roundId: string, event: Option<EventKind>, code: Option<string>, freshRound: string, now: int)
    requires RecordInv(r)
    requires ApplyEvent(r, caller, roundId, event, code, freshRound, now).Ok?
    ensures RecordInv(ApplyEvent(r, caller, roundId, event, code, freshRound, now).value.record)
  {
    if event == Some(CancelEvent) {
    } else {
      var side := Participant(r.card, caller).value;
      match event.value
      case ActiveEvent => ActiveKeeps(r, side, roundId, now);
      case CompleteEvent => CompleteKeeps(r, side, roundId, now);
      case InterruptEvent => InterruptKeeps(r, side, freshRound, now);
      case FailEvent =>
    }
  }

  lemma ApplyKeeps(r: Record, caller: Caller, req: Request, now: int)
    requires RecordInv(r)
    requires Apply(r, caller, req, now).Ok?
    ensures RecordInv(Apply(r, caller, req, now).value.record)
  {
    match req
    case Authorize(side, roundId, sessionHash, roundHash) => AuthorizeKeeps(r, caller, side, roundId, sessionHash, roundHash, now);
    case SendSignal(role, roundId, signal) => SignalKeeps(r, caller, role, roundId, signal, now);
    case Report(roundId, event, failureCode, freshRound) => EventKeeps(r, caller, roundId, event, failureCode, freshRound, now);
  }
}
