/** What one record may become: the order every transition of a session record respects. */
module PeerHubEvolution {
  import opened Prelude
  import opened PeerHubTypes
  import opened PeerHubSteps
  import opened PeerHubInvariant

  /** Inside one round, an answered negotiation is frozen: fingerprints, hashes and ticket stay. */
  predicate Frozen(r: Record, s: Record) {
    && s.round.state.Answered? && s.round.offerFp == r.round.offerFp && s.round.answerFp == r.round.answerFp
    && s.bindings == r.bindings
    && (!r.phase.Connecting? ==> !s.phase.Connecting?)
    && (r.ticket.Some? ==> s.ticket == r.ticket || s.phase.Expired?)
  }

  predicate KeepsSession(r: Record, s: Record) {
    && (r.bindings.source.session.Some? ==> s.bindings.source.session == r.bindings.source.session)
    && (r.bindings.target.session.Some? ==> s.bindings.target.session == r.bindings.target.session)
  }

  predicate Evolves(r: Record, s: Record) {
    && s.card == r.card
    && KeepsSession(r, s)
    && r.round.no <= s.round.no
    && (r.round.no == s.round.no ==> s.round.id == r.round.id && (r.round.state.Answered? ==> Frozen(r, s)))
    && (Terminal(r.phase) ==> s.round.no == r.round.no && (s.phase == r.phase || s.phase.Expired?))
    && (r.phase.Expired? ==> s == r)
  }

  lemma EvolvesTransitive(r: Record, s: Record, t: Record)
    requires Evolves(r, s) && Evolves(s, t)
    ensures Evolves(r, t)
  {
  }

  function Lapsed(r: Record, now: int): Record {
    r.(phase := Expired, ticket := None, updatedAt := now, gcAt := Some(now + GC_GRACE_MS))
  }

  lemma ExpiryKeeps(r: Record, now: int)
    requires RecordInv(r) && !r.phase.Expired?
    ensures RecordInv(Lapsed(r, now)) && Evolves(r, Lapsed(r, now))
  {
  }

  function Ticketed(r: Record, ticket: Ticket, now: int): Record {
    r.(ticket := Some(ticket), updatedAt := now)
  }

  lemma TicketKeeps(r: Record, ticket: Ticket, now: int)
    requires RecordInv(r) && r.phase.Connecting? && r.ticket.None? && Certifies(ticket, r)
    ensures RecordInv(Ticketed(r, ticket, now)) && Evolves(r, Ticketed(r, ticket, now))
  {
  }

  lemma EventEvolves(r: Record, caller: Caller, roundId: string, event: Option<EventKind>, code: Option<string>, freshRound: string, now: int)
    requires RecordInv(r)
    requires ApplyEvent(r, caller, roundId, event, code, freshRound, now).Ok?
    ensures Evolves(r, ApplyEvent(r, caller, roundId, event, code, freshRound, now).value.record)
  {
    if event != Some(CancelEvent) {
      var side := Participant(r.card, caller).value;
      match event.value
      case ActiveEvent => assert ApplyActive(r, side, roundId, now).Ok?;
      case CompleteEvent => assert ApplyComplete(r, side, roundId, now).Ok?;
      case InterruptEvent => assert ApplyInterrupt(r, side, freshRound, now).Ok?;
      case FailEvent => assert ApplyFail(r, side, code, now).Ok?;
    }
  }

  lemma ApplyEvolves(r: Record, caller: Caller, req: Request, now: int)
    requires RecordInv(r) && Apply(r, caller, req, now).Ok?
    ensures Evolves(r, Apply(r, caller, req, now).value.record)
  {
    match req
    case Authorize(_, _, _, _) =>
    case SendSignal(_, _, _) =>
    case Report(roundId, event, failureCode, freshRound) => EventEvolves(r, caller, roundId, event, failureCode, freshRound, now);
  }

  /** A statement built from a snapshot certifies every later record of the same round. */
  lemma SnapshotStaysTrue(snapshot: Record, later: Record, signedAt: int)
    requires RecordInv(snapshot) && snapshot.phase.Connecting?
    requires Evolves(snapshot, later) && later.round.no == snapshot.round.no
    requires BuildStatement(snapshot, signedAt).Ok?
    ensures Certifies(Signed(BuildStatement(snapshot, signedAt).value), later)
  {
  }

  /** The signer never finds the snapshot of a ready record incomplete. */
  lemma ReadyIsComplete(r: Record, roundId: string, now: int, signedAt: int)
    requires RecordInv(r) && TicketReady(r, roundId, now)
    ensures BuildStatement(r, signedAt).Ok? <==> signedAt < r.card.expiresAt
  {
  }
}
