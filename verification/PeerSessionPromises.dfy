/** What a caller of the peer-session object may rely on when a call returns, in every state a run can reach. */
module PeerSessionPromises {
  import opened Prelude
  import opened PeerHubTypes
  import opened PeerHubSteps
  import opened PeerHubInvariant
  import opened PeerHubEvolution
  import opened PeerHubRun
  import opened PeerHubSafety
  import opened PeerHubProgress

  lemma ReachableKeeps(w: World)
    requires Reachable(w)
    ensures WorldInv(w)
  {
    var h: History :| Run(h) == w;
    RunKeeps(h);
  }

  /** The stored state as an outcome of a transaction: the new one, or the old one on an error. */
  function Settled<E>(before: Hub, outcome: Result<Hub, E>): Hub {
    if outcome.Ok? then outcome.value else before
  }

  /** One accepted request: the record evolves, and either stays or comes strictly forward. */
  predicate MovesOn(r: Record, s: Record) {
    Evolves(r, s) && r.round.no <= MAX_ROUNDS && s.round.no <= MAX_ROUNDS && Progress(r, s)
  }

  lemma MutatePromise(w: World, caller: Caller, req: Request, now: int)
    requires WorldInv(w) && w.clock <= now && FreshId(w, req)
    ensures var o := Mutate(w.hub, caller, req, now);
            && Perform(w, DoMutate(caller, req), now).hub == Settled(w.hub, o)
            && (o.Ok? ==> w.hub.session.Some? && o.value.session.Some? && MovesOn(w.hub.session.value, o.value.session.value))
  {
    if Mutate(w.hub, caller, req, now).Ok? {
      ApplyEvolves(w.hub.session.value, caller, req, now);
      ApplyProgress(w.hub.session.value, caller, req, now);
    }
  }

  /** The approval of a side stands, for this round and with these hashes. */
  predicate Stands(r: Record, side: Side, roundId: string, sessionHash: Token, roundHash: Token) {
    r.round.id == roundId && StampedIn(r.approvals.Of(side), roundId) && r.bindings.Of(side) == Binding(Some(sessionHash), Some(roundHash))
  }

  lemma AuthorizePromise(r: Record, caller: Caller, side: Side, roundId: string, sessionHash: Token, roundHash: Token, now: int)
    requires RecordInv(r)
    ensures var o := ApplyAuthorize(r, caller, side, roundId, sessionHash, roundHash, now);
            o.Ok? ==> Stands(o.value.record, side, roundId, sessionHash, roundHash)
  {
    assert SideCoupled(r, side);
  }

  lemma SignalPromise(r: Record, caller: Caller, role: SignalRole, roundId: string, s: Signal, now: int)
    ensures var o := ApplySignal(r, caller, role, roundId, s, now);
            o.Ok? ==> o.value.record == r || (o.value.record.round.id == roundId && !Exceeds(s.seqNo, o.value.record.round.lastSeq.Of(role)))
  {
  }

  /** An interrupt opens the next round with nothing left of the old one, or ends the session. */
  predicate Rotated(r: Record, s: Record, freshRound: string) {
    if r.round.no < MAX_ROUNDS then
      && s.round == Round(r.round.no + 1, freshRound, AwaitingOffer, None, None, Roles(None, None), [])
      && s.phase.WaitingApproval? && Neither(s.approvals) && s.ticket.None?
    else s.phase.Failed? && s.failureCode == Some("ROUND_LIMIT")
  }

  lemma InterruptPromise(r: Record, caller: Caller, roundId: string, code: Option<string>, freshRound: string, now: int)
    ensures var o := ApplyEvent(r, caller, roundId, Some(InterruptEvent), code, freshRound, now);
            o.Ok? ==> Rotated(r, o.value.record, freshRound)
  {
  }

  lemma CreatePromise(w: World, caller: Caller, c: Creation, roundId: string, now: int)
    requires WorldInv(w) && !w.deleted && c.Parsed()
    ensures var o := Create(w.hub, caller, c, roundId, now);
            && Perform(w, DoCreate(caller, c, roundId), now).hub == Settled(w.hub, o)
            && (o.Ok? ==> o.value.session.Some? && SameIntent(o.value.session.value.card, NewRecord(c, roundId, now).card))
  {
  }

  lemma AlarmPromise(w: World, now: int)
    requires WorldInv(w) && w.clock <= now
    ensures var next := Perform(w, DoAlarm, now);
            && next.hub == (if Alarm(w.hub, now).None? then EMPTY_HUB else Alarm(w.hub, now).value)
            && (next.hub.session.Some? && next.hub.session.value.card.expiresAt <= now ==>
                  next.hub.session.value.phase.Expired? && next.hub.session.value.ticket.None?)
  {
  }

  lemma TicketPromise(w: World, e: Errand, signedAt: int, now: int)
    requires WorldInv(w) && w.clock <= now && e in w.errands && e.Sign? && e.job.IssueTicket? && e.takenAt <= signedAt <= now
    requires BuildStatement(e.snapshot, signedAt).Ok?
    ensures var ticket := Signed(BuildStatement(e.snapshot, signedAt).value);
            && Perform(w, DoSign(e, signedAt), now).hub == CommitTicket(w.hub, e.job, ticket, now)
            && (w.hub.session.Some? && TicketReady(w.hub.session.value, e.job.roundId, now) ==> Certifies(ticket, w.hub.session.value))
  {
    if w.hub.session.Some? && TicketReady(w.hub.session.value, e.job.roundId, now) {
      SignErrandCurrent(w, e, now);
      SnapshotStaysTrue(e.snapshot, w.hub.session.value, signedAt);
    }
  }

  lemma AckPromise(o: seq<Entry>, id: DeliveryId)
    requires DistinctIds(o)
    ensures forall other: DeliveryId :: HasId(Drop(o, id), other) <==> HasId(o, other) && other != id
  {
    DropDistinct(o, id);
  }
}
