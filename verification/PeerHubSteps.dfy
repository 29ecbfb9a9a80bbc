/** The transactions of the peer-session object as functions of its stored state. */
module PeerHubSteps {
  import opened Prelude
  import opened PeerHubTypes

  /** The outcome of a transition: the next record, whether the outbox is emptied first,
      and the entries then offered to it, in order. */
  datatype Change = Change(record: Record, cleared: bool, posted: seq<Entry>)

  datatype Request =
    | Authorize(side: Side, roundId: string, sessionHash: Token, roundHash: Token)
    | SendSignal(role: SignalRole, roundId: string, signal: Signal)
    | Report(roundId: string, event: Option<EventKind>, failureCode: Option<string>, freshRound: string)

  // ----- parties -----

  predicate Owns(card: Card, caller: Caller) {
    card.userId == caller.userId && card.kid == caller.kid
  }

  predicate IsSide(card: Card, caller: Caller, side: Side) {
    card.endpoints.Of(side).party == caller.party
  }

  function Participant(card: Card, caller: Caller): Option<Side> {
    if IsSide(card, caller, Source) then Some(Source)
    else if IsSide(card, caller, Target) then Some(Target)
    else None
  }

  predicate StampedIn(stamp: Option<Stamp>, roundId: string) {
    stamp.Some? && stamp.value.roundId == roundId
  }

  // ----- outbox -----

  predicate HasId(o: seq<Entry>, id: DeliveryId) {
    exists i :: 0 <= i < |o| && o[i].id == id
  }

  function Add(o: seq<Entry>, item: Entry): seq<Entry> {
    if HasId(o, item.id) then o else o + [item]
  }

  function AddAll(o: seq<Entry>, items: seq<Entry>): seq<Entry>
    decreases |items|
  {
    if |items| == 0 then o else AddAll(Add(o, items[0]), items[1..])
  }

  function Drop(o: seq<Entry>, id: DeliveryId): (r: seq<Entry>)
    ensures |r| <= |o|
    ensures forall e :: e in r <==> e in o && e.id != id
  {
    if |o| == 0 then []
    else if o[0].id == id then Drop(o[1..], id)
    else [o[0]] + Drop(o[1..], id)
  }

  function Post(c: Change, o: seq<Entry>): seq<Entry> {
    AddAll(if c.cleared then [] else o, c.posted)
  }

  // ----- deliveries -----

  function Mint(r: Record, suffix: Suffix): DeliveryId {
    DeliveryId(r.round.no, suffix)
  }

  function DeliverTo(r: Record, to: Side, suffix: Suffix, envelope: Envelope, now: int): Entry {
    Deliver(Mint(r, suffix), to, r.card.endpoints.Of(to).party, envelope, 0, now)
  }

  function PrepareDelivery(r: Record, to: Side, now: int): Entry {
    DeliverTo(r, to, PrepareTo(to), PrepareEnvelope(r.round.id, to), now)
  }

  function RoundDelivery(r: Record, to: Side, now: int): Entry {
    DeliverTo(r, to, RoundPrepareTo(to), RoundPrepareEnvelope(r.round.id, r.round.no, to), now)
  }

  function SignalDelivery(r: Record, from: SignalRole, s: Signal, now: int): Entry {
    DeliverTo(r, r.card.SignalSide(from.Other()), SignalFrom(from, s.kind, s.seqNo), SignalEnvelope(r.round.id, from, s), now)
  }

  function TicketJob(r: Record, now: int): Entry {
    IssueTicket(Mint(r, IssueTicketJob), r.round.id, 0, now)
  }

  function TicketDelivery(r: Record, to: Side, t: Ticket, now: int): Entry {
    DeliverTo(r, to, TicketTo(to), TicketEnvelope(r.round.id, t), now)
  }

  function UpdateDelivery(r: Record, cause: Cause, to: Side, now: int): Entry {
    DeliverTo(r, to, UpdateTo(cause, to), UpdateEnvelope(r.phase, r.round.id, r.round.no), now)
  }

  function Updates(r: Record, cause: Cause, now: int): seq<Entry> {
    [UpdateDelivery(r, cause, Source, now), UpdateDelivery(r, cause, Target, now)]
  }

  /** Expiry is only announced to devices. */
  function DeviceUpdates(r: Record, cause: Cause, now: int): seq<Entry> {
    (if r.card.endpoints.source.party.kind.Device? then [UpdateDelivery(r, cause, Source, now)] else [])
    + (if r.card.endpoints.target.party.kind.Device? then [UpdateDelivery(r, cause, Target, now)] else [])
  }

  // ----- the three mutations -----

  function Stutter(r: Record): Change {
    Change(r, false, [])
  }

  function ApplyAuthorize(r: Record, caller: Caller, side: Side, roundId: string, sessionHash: Token, roundHash: Token, now: int)
    : Result<Change, HubError>
  {
    var mine := r.bindings.Of(side);
    if r.round.id != roundId then Err(StaleRound)
    else if !IsSide(r.card, caller, side) then Err(RoleMismatch)
    else if Terminal(r.phase) then Err(BadState)
    else if mine.session.Some? && mine.session.value != sessionHash then Err(BindingConflict)
    else if StampedIn(r.approvals.Of(side), roundId) then
      if mine.round != Some(roundHash) then Err(BindingConflict) else Ok(Stutter(r))
    else if !r.phase.WaitingApproval? && !r.phase.Interrupted? then Err(BadState)
    else
      var approvals := r.approvals.With(side, Some(Stamp(now, roundId)));
      var next := r.(bindings := r.bindings.With(side, Binding(Some(sessionHash), Some(roundHash))),
                     approvals := approvals, updatedAt := now,
                     phase := if approvals.source.Some? && approvals.target.Some? then Signaling else r.phase);
      Ok(Change(next, false, Updates(next, ByAuthorize(side), now)))
  }

  function FindReceipt(receipts: seq<SignalReceipt>, id: DeliveryId): Option<SignalReceipt> {
    if |receipts| == 0 then None
    else if receipts[0].id == id then Some(receipts[0])
    else FindReceipt(receipts[1..], id)
  }

  /** receipts.slice(-63) followed by the new one. */
  function KeepReceipt(receipts: seq<SignalReceipt>, one: SignalReceipt): seq<SignalReceipt> {
    var n := |receipts|;
    (if n < RECEIPTS_MAX then receipts else receipts[n - (RECEIPTS_MAX - 1)..]) + [one]
  }

  function Exceeds(seqNo: SeqNo, last: Option<SeqNo>): bool {
    last.None? || seqNo > last.value
  }

  function ApplySignal(r: Record, caller: Caller, role: SignalRole, roundId: string, s: Signal, now: int)
    : Result<Change, HubError>
  {
    var id := Mint(r, SignalFrom(role, s.kind, s.seqNo));
    if r.round.id != roundId then Err(StaleRound)
    else if !IsSide(r.card, caller, r.card.SignalSide(role)) then Err(RoleMismatch)
    else if !r.phase.Signaling? && !r.phase.Connecting? then Err(BadState)
    else
      var receipt := FindReceipt(r.round.receipts, id);
      if receipt.Some? then
        if receipt.value.hash != s.hash then Err(SignalConflict) else Ok(Stutter(r))
      else if r.phase.Connecting? && !s.kind.Candidate? then Err(BadState)
      else if !Exceeds(s.seqNo, r.round.lastSeq.Of(role)) then Err(StaleSignal)
      else if s.kind.Offer? && !role.Initiator? then Err(RoleMismatch)
      else if s.kind.Offer? && !r.round.state.AwaitingOffer? then Err(OfferExists)
      else if s.kind.Answer? && !role.Responder? then Err(RoleMismatch)
      else if s.kind.Answer? && !r.round.state.Offered? then Err(BadState)
      else if s.kind.Candidate? && r.round.state.AwaitingOffer? then Err(BadState)
      else
        var round := r.round.(
          offerFp := if s.kind.Offer? then Some(s.fingerprint) else r.round.offerFp,
          answerFp := if s.kind.Answer? then Some(s.fingerprint) else r.round.answerFp,
          state := if s.kind.Offer? then Offered else if s.kind.Answer? then Answered else r.round.state,
          lastSeq := r.round.lastSeq.With(role, Some(s.seqNo)),
          receipts := KeepReceipt(r.round.receipts, SignalReceipt(id, s.hash)));
        var next := r.(round := round, phase := if s.kind.Answer? then Connecting else r.phase, updatedAt := now);
        Ok(Change(next, false,
                  [SignalDelivery(next, role, s, now)] + (if s.kind.Answer? then [TicketJob(next, now)] else [])))
  }

  predicate ValidFailureCode(code: string) {
    1 <= |code| <= 64 && forall c :: c in code ==> ('A' <= c <= 'Z') || ('0' <= c <= '9') || c == '_'
  }

  const NO_STAMPS: Sides<Option<Stamp>> := Sides(None, None)

  function BeginRound(r: Record, roundId: string, now: int): Record {
    r.(round := Round(r.round.no + 1, roundId, AwaitingOffer, None, None, Roles(None, None), []),
       ticket := None, approvals := NO_STAMPS, active := NO_STAMPS, completed := NO_STAMPS,
       bindings := Sides(r.bindings.source.(round := None), r.bindings.target.(round := None)),
       updatedAt := now)
  }

  /** The common tail of an event: stamp the time, drop queued control of a closed session, announce. */
  function Settle(r: Record, cleared: bool, first: seq<Entry>, event: EventKind, who: Option<Side>, now: int): Change {
    var next := r.(updatedAt := now);
    var updates := Updates(next, ByEvent(event, who, next.round.no), now);
    if Terminal(next.phase) then Change(next, true, updates) else Change(next, cleared, first + updates)
  }

  function ApplyEvent(r: Record, caller: Caller, roundId: string, event: Option<EventKind>, failureCode: Option<string>,
                      freshRound: string, now: int)
    : Result<Change, HubError>
  {
    var who := Participant(r.card, caller);
    if event != Some(FailEvent) && r.round.id != roundId then Err(StaleRound)
    else if who.None? && r.card.coordinator != caller.party then Err(NotParticipant)
    else if event == Some(CancelEvent) then
      if Terminal(r.phase) then Ok(Stutter(r)) else Ok(Settle(r.(phase := Cancelled), false, [], CancelEvent, who, now))
    else if who.None? then Err(NotParticipant)
    else if event.None? then Err(InvalidEvent)
    else
      match event.value
      case ActiveEvent => ApplyActive(r, who.value, roundId, now)
      case CompleteEvent => ApplyComplete(r, who.value, roundId, now)
      case InterruptEvent => ApplyInterrupt(r, who.value, freshRound, now)
      case _ => ApplyFail(r, who.value, failureCode, now)
  }

  function MarkedActive(r: Record, side: Side, roundId: string, now: int): Record {
    var active := r.active.With(side, Some(Stamp(now, roundId)));
    r.(active := active, phase := if active.source.Some? && active.target.Some? then Active else r.phase)
  }

  function ApplyActive(r: Record, side: Side, roundId: string, now: int): Result<Change, HubError> {
    if StampedIn(r.active.Of(side), roundId) then Ok(Stutter(r))
    else if (!r.phase.Connecting? && !r.phase.Active?) || r.ticket.None? then Err(BadState)
    else Ok(Settle(MarkedActive(r, side, roundId, now), false, [], ActiveEvent, Some(side), now))
  }

  function MarkedComplete(r: Record, side: Side, roundId: string, now: int): Record {
    var stamp := Some(Stamp(now, roundId));
    var active := if r.active.Of(side).None? then r.active.With(side, stamp) else r.active;
    var completed := r.completed.With(side, stamp);
    var phase :=
      if completed.source.Some? && completed.target.Some? then Completed
      else if active.source.Some? && active.target.Some? then Active
      else r.phase;
    r.(active := active, completed := completed, phase := phase)
  }

  function ApplyComplete(r: Record, side: Side, roundId: string, now: int): Result<Change, HubError> {
    if StampedIn(r.completed.Of(side), roundId) then Ok(Stutter(r))
    else if !r.phase.Connecting? && !r.phase.Active? then Err(BadState)
    else Ok(Settle(MarkedComplete(r, side, roundId, now), false, [], CompleteEvent, Some(side), now))
  }

  function ApplyInterrupt(r: Record, side: Side, freshRound: string, now: int): Result<Change, HubError> {
    if !r.phase.Active? && !r.phase.Connecting? then Err(BadState)
    else if r.round.no >= MAX_ROUNDS then
      Ok(Settle(r.(phase := Failed, failureCode := Some("ROUND_LIMIT")), true, [], InterruptEvent, Some(side), now))
    else
      var next := BeginRound(r, freshRound, now).(phase := WaitingApproval);
      Ok(Settle(next, true, [RoundDelivery(next, Source, now), RoundDelivery(next, Target, now)], InterruptEvent, Some(side), now))
  }

  function ApplyFail(r: Record, side: Side, failureCode: Option<string>, now: int): Result<Change, HubError> {
    var code := if failureCode.Some? then failureCode.value else "PEER_FAILED";
    if Terminal(r.phase) then Ok(Stutter(r))
    else if !ValidFailureCode(code) then Err(InvalidFailure)
    else Ok(Settle(r.(phase := Failed, failureCode := Some(code)), false, [], FailEvent, Some(side), now))
  }

  function Apply(r: Record, caller: Caller, req: Request, now: int): Result<Change, HubError> {
    match req
    case Authorize(side, roundId, sessionHash, roundHash) => ApplyAuthorize(r, caller, side, roundId, sessionHash, roundHash, now)
    case SendSignal(role, roundId, signal) => ApplySignal(r, caller, role, roundId, signal, now)
    case Report(roundId, event, failureCode, freshRound) => ApplyEvent(r, caller, roundId, event, failureCode, freshRound, now)
  }

  // ----- scheduling -----

  function EarliestDue(o: seq<Entry>): Option<int> {
    if |o| == 0 then None
    else
      var rest := EarliestDue(o[1..]);
      if rest.None? || o[0].nextAttemptAt < rest.value then Some(o[0].nextAttemptAt) else rest
  }

  function Expiry(r: Record): int {
    if r.phase.Expired? && r.gcAt.Some? then r.gcAt.value else r.card.expiresAt
  }

  function AlarmTime(r: Record, o: seq<Entry>, now: int): int {
    var due := EarliestDue(o);
    Max(now + 1, if due.Some? then Min(due.value, Expiry(r)) else Expiry(r))
  }

  function Scheduled(h: Hub, now: int): Hub {
    if h.session.None? then h else h.(alarm := Some(AlarmTime(h.session.value, h.outbox, now)))
  }

  // ----- transactions -----

  function Mutate(h: Hub, caller: Caller, req: Request, now: int): Result<Hub, HubError> {
    if h.session.None? || !Owns(h.session.value.card, caller) then Err(NotFound)
    else if h.session.value.card.expiresAt <= now then Err(SessionExpired)
    else
      match Apply(h.session.value, caller, req, now)
      case Err(e) => Err(e)
      case Ok(c) =>
        var o := Post(c, h.outbox);
        if |o| > OUTBOX_MAX then Err(OutboxBackpressure)
        else Ok(Scheduled(h.(session := Some(c.record), outbox := o), now))
  }

  /** A creation request after parsing; the parser refuses equal endpoints. */
  datatype Creation = Creation(
    sessionId: string, userId: string, kid: string, operatorId: string, coordinator: Party, protocol: string,
    capability: Token, endpoints: Sides<Endpoint>, initiator: Side)
  {
    predicate Parsed() { endpoints.source.party != endpoints.target.party }
  }

  function NewRecord(c: Creation, roundId: string, now: int): Record {
    Record(
      Card(c.sessionId, c.userId, c.kid, c.operatorId, c.coordinator, c.protocol, c.capability, c.endpoints, c.initiator,
           now, now + SESSION_TTL_MS),
      Sides(Binding(None, None), Binding(None, None)), NO_STAMPS, NO_STAMPS, NO_STAMPS, WaitingApproval,
      Round(1, roundId, AwaitingOffer, None, None, Roles(None, None), []), None, now, None, None)
  }

  predicate SameIntent(a: Card, b: Card) {
    a.sessionId == b.sessionId && a.operatorId == b.operatorId && a.coordinator == b.coordinator &&
    a.protocol == b.protocol && a.capability == b.capability && a.endpoints == b.endpoints && a.initiator == b.initiator
  }

  function Create(h: Hub, caller: Caller, c: Creation, roundId: string, now: int): Result<Hub, HubError> {
    var candidate := NewRecord(c, roundId, now);
    if !Owns(candidate.card, caller) then Err(NotFound)
    else if c.coordinator != caller.party then Err(CoordinatorMismatch)
    else if h.session.Some? then
      var card := h.session.value.card;
      if !Owns(card, caller) then Err(NotFound)
      else if card.coordinator != caller.party || card.coordinator != c.coordinator then Err(CoordinatorMismatch)
      else if !SameIntent(card, candidate.card) then Err(CreateConflict)
      else Ok(h)
    else
      Ok(Scheduled(h.(session := Some(candidate), outbox := [PrepareDelivery(candidate, Source, now), PrepareDelivery(candidate, Target, now)]), now))
  }

  function Keep(items: seq<MailItem>, acked: set<DeliveryId>): (r: seq<MailItem>)
    ensures |r| <= |items|
    ensures forall m :: m in r <==> m in items && m.id !in acked
  {
    if |items| == 0 then []
    else if items[0].id in acked then Keep(items[1..], acked)
    else [items[0]] + Keep(items[1..], acked)
  }

  function Poll(h: Hub, caller: Caller, acked: set<DeliveryId>): Result<Hub, HubError> {
    if h.session.None? || !Owns(h.session.value.card, caller) then Err(NotFound)
    else
      var side := Participant(h.session.value.card, caller);
      if side.None? then Err(NotParticipant)
      else Ok(h.(mail := h.mail.With(side.value, Keep(h.mail.Of(side.value), acked))))
  }

  function FindEntry(o: seq<Entry>, id: DeliveryId): (r: Option<Entry>)
    ensures r.Some? <==> HasId(o, id)
    ensures r.Some? ==> r.value in o && r.value.id == id
  {
    if |o| == 0 then None
    else if o[0].id == id then
      assert HasId(o, id);
      Some(o[0])
    else
      var rest := FindEntry(o[1..], id);
      assert HasId(o[1..], id) ==> HasId(o, id) by {
        if HasId(o[1..], id) {
          var i :| 0 <= i < |o[1..]| && o[1..][i].id == id;
          assert o[i + 1].id == id;
        }
      }
      assert HasId(o, id) ==> HasId(o[1..], id) by {
        if HasId(o, id) {
          var i :| 0 <= i < |o| && o[i].id == id;
          assert o[1..][i - 1].id == id;
        }
      }
      rest
  }

  function DeviceAck(h: Hub, caller: Caller, id: DeliveryId, now: int): Result<Hub, HubError> {
    if h.session.None? || !Owns(h.session.value.card, caller) then Err(NotFound)
    else if Participant(h.session.value.card, caller).None? then Err(NotParticipant)
    else
      var item := FindEntry(h.outbox, id);
      if item.None? then Ok(h)
      else if !item.value.Deliver? || !item.value.endpoint.kind.Device? || item.value.endpoint != caller.party then
        Err(DeliveryMismatch)
      else Ok(Scheduled(h.(outbox := Drop(h.outbox, id)), now))
  }

  /** Alarm: None asks for the whole object to be deleted. */
  function Alarm(h: Hub, now: int): Option<Hub> {
    if h.session.None? then None
    else
      var r := h.session.value;
      if r.phase.Expired? && Expiry(r) <= now then None
      else if !r.phase.Expired? && r.card.expiresAt <= now then
        var gone := r.(phase := Expired, ticket := None, updatedAt := now, gcAt := Some(now + GC_GRACE_MS));
        Some(Scheduled(h.(session := Some(gone), outbox := AddAll([], DeviceUpdates(gone, ByExpiry, now))), now))
      else Some(Scheduled(h, now))
  }

  const EMPTY_HUB := Hub(None, [], Sides([], []), None)

  predicate HasMail(items: seq<MailItem>, id: DeliveryId) {
    exists i :: 0 <= i < |items| && items[i].id == id
  }

  /** Moves one delivery into the mailbox of its side. */
  function Mail(h: Hub, item: Entry, now: int): Result<Hub, HubError>
    requires item.Deliver?
  {
    if !HasId(h.outbox, item.id) then Ok(h)
    else
      var box := h.mail.Of(item.side);
      if !HasMail(box, item.id) && |box| >= MAILBOX_MAX then Err(MailboxBackpressure)
      else
        var filled := if HasMail(box, item.id) then box else box + [MailItem(item.id, item.envelope)];
        Ok(Scheduled(h.(mail := h.mail.With(item.side, filled), outbox := Drop(h.outbox, item.id)), now))
  }

  function Ack(h: Hub, id: DeliveryId, now: int): Hub {
    Scheduled(h.(outbox := Drop(h.outbox, id)), now)
  }

  const BACKOFF: seq<nat> := [1_000, 2_000, 4_000, 8_000, 16_000, 30_000]

  /** Exponential backoff from one second to thirty, spread by a hash of the delivery id. */
  function RetryDelay(attempt: nat, spread: nat): (d: int)
    requires attempt >= 1
    ensures 1_000 <= d <= 30_000
  {
    var base := BACKOFF[Min(5, attempt - 1)];
    Min(30_000, base + spread % (base / 4))
  }

  function Postpone(o: seq<Entry>, id: DeliveryId, now: int, spread: nat): (r: seq<Entry>)
    ensures |r| == |o|
    ensures forall i :: 0 <= i < |o| ==> r[i].id == o[i].id
    ensures forall i :: 0 <= i < |o| && o[i].id != id ==> r[i] == o[i]
  {
    if |o| == 0 then []
    else
      [if o[0].id == id
       then o[0].(attempts := o[0].attempts + 1, nextAttemptAt := now + RetryDelay(o[0].attempts + 1, spread))
       else o[0]]
      + Postpone(o[1..], id, now, spread)
  }

  function Retry(h: Hub, id: DeliveryId, now: int, spread: nat): Hub {
    Scheduled(h.(outbox := Postpone(h.outbox, id, now, spread)), now)
  }

  predicate TicketReady(r: Record, roundId: string, now: int) {
    r.card.expiresAt > now && r.phase.Connecting? && r.round.id == roundId && r.round.state.Answered? && r.ticket.None?
  }

  predicate BindingComplete(r: Record) {
    r.round.state.Answered? && r.round.offerFp.Some? && r.round.answerFp.Some? &&
    r.bindings.source.session.Some? && r.bindings.source.round.Some? &&
    r.bindings.target.session.Some? && r.bindings.target.round.Some?
  }

  function BuildStatement(r: Record, now: int): Result<Statement, HubError> {
    if !BindingComplete(r) then Err(BadState)
    else if r.card.expiresAt <= now then Err(SessionExpired)
    else Ok(Statement(
      r.card.sessionId, r.round.id, r.card.kid, r.card.userId, r.card.operatorId, r.card.protocol,
      r.card.endpoints.source, r.card.endpoints.target,
      r.card.endpoints.Of(r.card.SignalSide(Initiator)).party, r.card.endpoints.Of(r.card.SignalSide(Responder)).party,
      r.card.capability,
      r.bindings.source.session.value, r.bindings.source.round.value,
      r.bindings.target.session.value, r.bindings.target.round.value,
      r.round.offerFp.value, r.round.answerFp.value, now, Min(r.card.expiresAt, now + TICKET_TTL_MS)))
  }

  /** The second half of a ticket job, run when the signer has answered. */
  function CommitTicket(h: Hub, job: Entry, ticket: Ticket, now: int): Hub
    requires job.IssueTicket?
  {
    var o := Drop(h.outbox, job.id);
    if h.session.Some? && TicketReady(h.session.value, job.roundId, now) then
      var next := h.session.value.(ticket := Some(ticket), updatedAt := now);
      Scheduled(h.(session := Some(next),
                   outbox := AddAll(o, [TicketDelivery(next, Source, ticket, now), TicketDelivery(next, Target, ticket, now)])), now)
    else Scheduled(h.(outbox := o), now)
  }
}
