/** The persistent data of one peer session at the Hub: the session record, the
    outbox, the two mailboxes, and the ids and envelopes that travel in them. */
module PeerHubTypes {
  import opened Prelude

  const MAX_ROUNDS := 4
  const SESSION_TTL_MS := 1_800_000
  const TICKET_TTL_MS := 60_000
  const GC_GRACE_MS := 300_000
  const MAILBOX_MAX := 96
  const OUTBOX_MAX := 192
  const SEQ_MAX := 1_000_000_000
  const RECEIPTS_MAX := 64

  /** Hashes, fingerprints and payload digests are compared and never opened. */
  type Token = string

  /** Sequence numbers as the request parser admits them. */
  type SeqNo = n: nat | n <= SEQ_MAX

  datatype Side = Source | Target {
    function Other(): Side { if Source? then Target else Source }
  }

  datatype SignalRole = Initiator | Responder {
    function Other(): SignalRole { if Initiator? then Responder else Initiator }
  }

  datatype Sides<T> = Sides(source: T, target: T) {
    function Of(s: Side): T { if s.Source? then source else target }
    function With(s: Side, v: T): Sides<T> { if s.Source? then Sides(v, target) else Sides(source, v) }
  }

  datatype Roles<T> = Roles(initiator: T, responder: T) {
    function Of(r: SignalRole): T { if r.Initiator? then initiator else responder }
    function With(r: SignalRole, v: T): Roles<T> { if r.Initiator? then Roles(v, responder) else Roles(initiator, v) }
  }

  datatype EndpointKind = Tool | Device
  datatype Party = Party(kind: EndpointKind, id: string)
  datatype Caller = Caller(userId: string, kid: string, party: Party)

  /** What names an endpoint; fixed when the session is created. */
  datatype Endpoint = Endpoint(party: Party, pluginId: string, pluginVersion: string, action: string, role: string)

  /** The nonce hashes an endpoint has submitted. */
  datatype Binding = Binding(session: Option<Token>, round: Option<Token>)

  /** The part of the record no transition rewrites. */
  datatype Card = Card(
    sessionId: string, userId: string, kid: string, operatorId: string, coordinator: Party, protocol: string,
    capability: Token, endpoints: Sides<Endpoint>, initiator: Side, createdAt: int, expiresAt: int)
  {
    function SignalSide(r: SignalRole): Side { if r.Initiator? then initiator else initiator.Other() }
  }

  datatype Phase =
    | WaitingApproval | Signaling | Connecting | Active | Interrupted
    | Completed | Cancelled | Failed | Expired

  datatype RoundState = AwaitingOffer | Offered | Answered
  datatype Stamp = Stamp(at: int, roundId: string)
  datatype SignalReceipt = SignalReceipt(id: DeliveryId, hash: Token)

  datatype Round = Round(
    no: nat, id: string, state: RoundState, offerFp: Option<Token>, answerFp: Option<Token>,
    lastSeq: Roles<Option<SeqNo>>, receipts: seq<SignalReceipt>)

  /** What a ticket certifies. */
  datatype Statement = Statement(
    sessionId: string, roundId: string, kid: string, userId: string, operatorId: string, protocol: string,
    source: Endpoint, target: Endpoint, initiator: Party, responder: Party, capability: Token,
    sourceSession: Token, sourceRound: Token, targetSession: Token, targetRound: Token,
    offerFp: Token, answerFp: Token, iat: int, exp: int)

  /** A signature is an injective token of what it signs. */
  datatype Ticket = Signed(statement: Statement)

  datatype Record = Record(
    card: Card, bindings: Sides<Binding>, approvals: Sides<Option<Stamp>>,
    active: Sides<Option<Stamp>>, completed: Sides<Option<Stamp>>,
    phase: Phase, round: Round, ticket: Option<Ticket>,
    updatedAt: int, gcAt: Option<int>, failureCode: Option<string>)

  datatype SignalKind = Offer | Answer | Candidate
  /** A parsed signal; offers and answers carry the fingerprint found in their SDP. */
  datatype Signal = Signal(kind: SignalKind, seqNo: SeqNo, fingerprint: Token, hash: Token)

  datatype EventKind = ActiveEvent | CompleteEvent | CancelEvent | InterruptEvent | FailEvent

  /** Why an update goes out; `who` is None for the coordinator. */
  datatype Cause =
    | ByAuthorize(side: Side)
    | ByEvent(event: EventKind, who: Option<Side>, roundNo: nat)
    | ByExpiry

  datatype Suffix =
    | PrepareTo(to: Side)
    | RoundPrepareTo(to: Side)
    | SignalFrom(from: SignalRole, kind: SignalKind, seqNo: SeqNo)
    | IssueTicketJob
    | TicketTo(to: Side)
    | UpdateTo(cause: Cause, to: Side)

  /** The stable delivery id of one session: the round it was minted in, and a suffix. */
  datatype DeliveryId = DeliveryId(no: nat, suffix: Suffix)

  datatype Envelope =
    | PrepareEnvelope(roundId: string, side: Side)
    | RoundPrepareEnvelope(roundId: string, roundNo: nat, side: Side)
    | SignalEnvelope(roundId: string, from: SignalRole, signal: Signal)
    | TicketEnvelope(roundId: string, ticket: Ticket)
    | UpdateEnvelope(phase: Phase, roundId: string, roundNo: nat)

  datatype Entry =
    | Deliver(id: DeliveryId, side: Side, endpoint: Party, envelope: Envelope, attempts: nat, nextAttemptAt: int)
    | IssueTicket(id: DeliveryId, roundId: string, attempts: nat, nextAttemptAt: int)

  datatype MailItem = MailItem(id: DeliveryId, envelope: Envelope)

  /** Everything the object keeps in durable storage, with its alarm. */
  datatype Hub = Hub(session: Option<Record>, outbox: seq<Entry>, mail: Sides<seq<MailItem>>, alarm: Option<int>)

  datatype HubError =
    | NotFound | SessionExpired | StaleRound | RoleMismatch | NotParticipant | BadState | BindingConflict
    | SignalConflict | StaleSignal | OfferExists | InvalidFailure | InvalidEvent | OutboxBackpressure
    | MailboxBackpressure | DeliveryMismatch | CoordinatorMismatch | CreateConflict | TicketRejected

  predicate Terminal(p: Phase) {
    p.Completed? || p.Cancelled? || p.Failed? || p.Expired?
  }
}
