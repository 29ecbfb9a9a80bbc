/** Delivery ids over a whole run: which are used up, which a transition mints, and the one case
    in which an id is minted twice. */
module PeerHubDeliveries {
  import opened Prelude
  import opened PeerHubTypes
  import opened PeerHubSteps
  import opened PeerHubInvariant
  import opened PeerHubEvolution
  import opened PeerHubRun
  import opened PeerHubSafety

  predicate CauseUsed(r: Record, openers: seq<Side>, cause: Cause) {
    match cause
    case ByAuthorize(side) => r.approvals.Of(side).Some?
    case ByExpiry => r.phase.Expired?
    case ByEvent(event, who, no) =>
      no == r.round.no &&
      match event
      case ActiveEvent => who.Some? && r.active.Of(who.value).Some?
      case CompleteEvent => who.Some? && r.completed.Of(who.value).Some?
      case InterruptEvent =>
        who.Some? && (r.failureCode.Some? || (r.round.no >= 2 && r.round.no == |openers| && openers[r.round.no - 1] == who.value))
      case _ => Terminal(r.phase)
  }

  /** The id may have been offered to the outbox by the time the record is r. */
  predicate Used(r: Record, openers: seq<Side>, id: DeliveryId) {
    id.no < r.round.no ||
    (id.no == r.round.no &&
     match id.suffix
     case PrepareTo(_) => true
     case RoundPrepareTo(_) => r.round.no >= 2
     case SignalFrom(role, _, seqNo) => !Exceeds(seqNo, r.round.lastSeq.Of(role))
     case IssueTicketJob => r.round.state.Answered?
     case TicketTo(_) => r.ticket.Some? || r.phase.Expired?
     case UpdateTo(cause, _) => CauseUsed(r, openers, cause))
  }

  /** The notice of the fourth interruption carries the id of the notice that opened round four
      whenever the same endpoint caused both. */
  predicate LimitEcho(openers: seq<Side>, id: DeliveryId) {
    |openers| == MAX_ROUNDS && id.no == MAX_ROUNDS && id.suffix.UpdateTo? &&
    id.suffix.cause == ByEvent(InterruptEvent, Some(openers[MAX_ROUNDS - 1]), MAX_ROUNDS)
  }

  /** A change that mints ids unused before it, used after it, and pairwise distinct. */
  predicate MintsFresh(r: Record, openers: seq<Side>, s: Record, more: seq<Side>, posted: seq<Entry>) {
    && DistinctIds(posted)
    && (forall e :: e in posted ==> !Used(r, openers, e.id) && Used(s, more, e.id))
  }

  ghost predicate UsedGrows(r: Record, openers: seq<Side>, s: Record, more: seq<Side>) {
    forall id: DeliveryId :: Used(r, openers, id) ==> Used(s, more, id)
  }

  /** Marks that, once set in a round, stay set in it. */
  ghost predicate MarksStay(r: Record, s: Record) {
    && (forall side: Side :: r.approvals.Of(side).Some? ==> s.approvals.Of(side).Some?)
    && (forall side: Side :: r.active.Of(side).Some? ==> s.active.Of(side).Some?)
    && (forall side: Side :: r.completed.Of(side).Some? ==> s.completed.Of(side).Some?)
    && (forall role: SignalRole, n: SeqNo :: !Exceeds(n, r.round.lastSeq.Of(role)) ==> !Exceeds(n, s.round.lastSeq.Of(role)))
    && (r.round.state.Answered? ==> s.round.state.Answered?)
    && (r.ticket.Some? || r.phase.Expired? ==> s.ticket.Some? || s.phase.Expired?)
    && (Terminal(r.phase) ==> Terminal(s.phase))
    && (r.failureCode.Some? ==> s.failureCode.Some?)
    && (r.phase.Expired? ==> s.phase.Expired?)
  }

  lemma MarksStayUsed(r: Record, openers: seq<Side>, s: Record)
    requires s.round.no == r.round.no && MarksStay(r, s)
    ensures UsedGrows(r, openers, s, openers)
  {
  }

  lemma AuthorizeMints(r: Record, openers: seq<Side>, caller: Caller, side: Side, roundId: string, sh: Token, rh: Token, now: int)
    requires RecordInv(r) && ApplyAuthorize(r, caller, side, roundId, sh, rh, now).Ok?
    ensures var c := ApplyAuthorize(r, caller, side, roundId, sh, rh, now).value;
            MintsFresh(r, openers, c.record, openers, c.posted) && MarksStay(r, c.record)
  {
    assert SideCoupled(r, side);
  }

  lemma SignalMints(r: Record, openers: seq<Side>, caller: Caller, role: SignalRole, roundId: string, s: Signal, now: int)
    requires RecordInv(r) && ApplySignal(r, caller, role, roundId, s, now).Ok?
    ensures var c := ApplySignal(r, caller, role, roundId, s, now).value;
            MintsFresh(r, openers, c.record, openers, c.posted) && MarksStay(r, c.record)
  {
  }

  lemma UpdatesMint(r: Record, openers: seq<Side>, s: Record, cause: Cause, now: int)
    requires s.round.no == r.round.no && !CauseUsed(r, openers, cause) && CauseUsed(s, openers, cause)
    ensures MintsFresh(r, openers, s, openers, Updates(s, cause, now))
  {
  }

  lemma ActiveMints(r: Record, openers: seq<Side>, side: Side, roundId: string, now: int)
    requires RecordInv(r) && r.round.id == roundId && ApplyActive(r, side, roundId, now).Ok?
    ensures var c := ApplyActive(r, side, roundId, now).value;
            MintsFresh(r, openers, c.record, openers, c.posted) && MarksStay(r, c.record)
  {
    var c := ApplyActive(r, side, roundId, now).value;
    assert SideCoupled(r, side);
    if c != Stutter(r) {
      assert MarksStay(r, c.record) by {
        match side
        case Source =>
        case Target =>
      }
      var cause := ByEvent(ActiveEvent, Some(side), r.round.no);
      UpdatesMint(r, openers, c.record, cause, now);
      assert c.posted == Updates(c.record, cause, now);
    }
  }

  lemma CompleteMints(r: Record, openers: seq<Side>, side: Side, roundId: string, now: int)
    requires RecordInv(r) && r.round.id == roundId && ApplyComplete(r, side, roundId, now).Ok?
    ensures var c := ApplyComplete(r, side, roundId, now).value;
            MintsFresh(r, openers, c.record, openers, c.posted) && MarksStay(r, c.record)
  {
    var c := ApplyComplete(r, side, roundId, now).value;
    assert SideCoupled(r, side);
    if c != Stutter(r) {
      assert MarksStay(r, c.record) by {
        match side
        case Source =>
        case Target =>
      }
      var cause := ByEvent(CompleteEvent, Some(side), r.round.no);
      UpdatesMint(r, openers, c.record, cause, now);
      assert c.posted == Updates(c.record, cause, now);
    }
  }

  /** Cancel and fail: the first terminal event of the session. */
  lemma EndingMints(r: Record, openers: seq<Side>, s: Record, event: EventKind, who: Option<Side>, now: int)
    requires RecordInv(r) && !Terminal(r.phase) && Terminal(s.phase) && !s.phase.Expired?
    requires event.CancelEvent? || event.FailEvent?
    requires s.(phase := r.phase, failureCode := r.failureCode) == r
    ensures var c := Settle(s, false, [], event, who, now);
            MintsFresh(r, openers, c.record, openers, c.posted) && MarksStay(r, c.record)
  {
  }

  lemma NextRoundMints(r: Record, openers: seq<Side>, side: Side, freshRound: string, now: int)
    requires RecordInv(r) && |openers| == r.round.no < MAX_ROUNDS && ApplyInterrupt(r, side, freshRound, now).Ok?
    ensures var c := ApplyInterrupt(r, side, freshRound, now).value;
            MintsFresh(r, openers, c.record, openers + [side], c.posted) && c.record.round.no == r.round.no + 1
  {
  }

  lemma LimitMints(r: Record, openers: seq<Side>, side: Side, freshRound: string, now: int)
    requires RecordInv(r) && |openers| == r.round.no == MAX_ROUNDS && ApplyInterrupt(r, side, freshRound, now).Ok?
    ensures var c := ApplyInterrupt(r, side, freshRound, now).value;
            && DistinctIds(c.posted) && MarksStay(r, c.record) && c.record.round.no == r.round.no
            && |c.posted| == 2
            && (forall e :: e in c.posted ==> Used(c.record, openers, e.id))
            && (forall e :: e in c.posted ==> (Used(r, openers, e.id) <==> openers[MAX_ROUNDS - 1] == side))
            && (forall e :: e in c.posted ==> (LimitEcho(openers, e.id) <==> openers[MAX_ROUNDS - 1] == side))
  {
  }

  /** What one accepted mutation does to the ids: fresh ones, or the echo at the round limit. */
  ghost predicate Mints(r: Record, openers: seq<Side>, s: Record, more: seq<Side>, posted: seq<Entry>) {
    && DistinctIds(posted)
    && UsedGrows(r, openers, s, more)
    && (forall e :: e in posted ==> Used(s, more, e.id))
    && (forall e :: e in posted ==> !Used(r, openers, e.id) || LimitEcho(openers, e.id))
  }

  predicate AtLimit(r: Record, caller: Caller, req: Request) {
    req.Report? && req.event == Some(InterruptEvent) && r.round.no == MAX_ROUNDS && Participant(r.card, caller).Some?
  }

  lemma ApplyMints(r: Record, openers: seq<Side>, caller: Caller, req: Request, now: int)
    requires RecordInv(r) && |openers| == r.round.no && Apply(r, caller, req, now).Ok?
    ensures var c := Apply(r, caller, req, now).value;
            var more := if c.record.round.no != r.round.no then openers + [Opener(r.card, caller)] else openers;
            && Mints(r, openers, c.record, more, c.posted)
            && ((exists e :: e in c.posted && Used(r, openers, e.id)) <==>
                  AtLimit(r, caller, req) && openers[MAX_ROUNDS - 1] == Opener(r.card, caller))
  {
    var c := Apply(r, caller, req, now).value;
    match req
    case Authorize(side, roundId, sh, rh) =>
      AuthorizeMints(r, openers, caller, side, roundId, sh, rh, now);
      MarksStayUsed(r, openers, c.record);
    case SendSignal(role, roundId, signal) =>
      SignalMints(r, openers, caller, role, roundId, signal, now);
      MarksStayUsed(r, openers, c.record);
    case Report(roundId, event, failureCode, freshRound) =>
      EventMints(r, openers, caller, roundId, event, failureCode, freshRound, now);
  }

  lemma EventMints(r: Record, openers: seq<Side>, caller: Caller, roundId: string, event: Option<EventKind>, code: Option<string>, freshRound: string, now: int)
    requires RecordInv(r) && |openers| == r.round.no && ApplyEvent(r, caller, roundId, event, code, freshRound, now).Ok?
    ensures var c := ApplyEvent(r, caller, roundId, event, code, freshRound, now).value;
            var more := if c.record.round.no != r.round.no then openers + [Opener(r.card, caller)] else openers;
            && Mints(r, openers, c.record, more, c.posted)
            && ((exists e :: e in c.posted && Used(r, openers, e.id)) <==>
                  event == Some(InterruptEvent) && r.round.no == MAX_ROUNDS && openers[MAX_ROUNDS - 1] == Opener(r.card, caller))
  {
    var c := ApplyEvent(r, caller, roundId, event, code, freshRound, now).value;
    var who := Participant(r.card, caller);
    if event == Some(InterruptEvent) {
      var side := who.value;
      if r.round.no < MAX_ROUNDS {
        NextRoundMints(r, openers, side, freshRound, now);
      } else {
        LimitMints(r, openers, side, freshRound, now);
        MarksStayUsed(r, openers, c.record);
        assert c.posted[0] in c.posted;
      }
    } else {
      assert MintsFresh(r, openers, c.record, openers, c.posted) && MarksStay(r, c.record) && c.record.round.no == r.round.no by {
        if event == Some(CancelEvent) {
          if !Terminal(r.phase) { EndingMints(r, openers, r.(phase := Cancelled), CancelEvent, who, now); }
        } else if event == Some(ActiveEvent) {
          ActiveMints(r, openers, who.value, roundId, now);
        } else if event == Some(CompleteEvent) {
          CompleteMints(r, openers, who.value, roundId, now);
        } else if !Terminal(r.phase) {
          var failure := if code.Some? then code.value else "PEER_FAILED";
          EndingMints(r, openers, r.(phase := Failed, failureCode := Some(failure)), FailEvent, who, now);
        }
      }
      MarksStayUsed(r, openers, c.record);
    }
  }

  // ----- over a whole run -----

  /** The two notices that announced the current round, once there has been an interruption. */
  predicate Opening(r: Record, openers: seq<Side>, id: DeliveryId) {
    r.round.no >= 2 && |openers| == r.round.no && id.no == r.round.no && id.suffix.UpdateTo? &&
    id.suffix.cause == ByEvent(InterruptEvent, Some(openers[r.round.no - 1]), r.round.no)
  }

  ghost predicate IssuedInv(w: World) {
    && (forall i, j :: 0 <= i < j < |w.issued| && w.issued[i] == w.issued[j] ==> LimitEcho(w.openers, w.issued[i]))
    && (w.hub.session.Some? ==>
          var r := w.hub.session.value;
          && (forall id :: id in w.issued ==> Used(r, w.openers, id))
          && (forall id: DeliveryId :: Opening(r, w.openers, id) ==> id in w.issued))
  }

  /** Appending ids: each is used afterwards, and is new unless it is the echo. */
  lemma AppendIssued(issued: seq<DeliveryId>, r: Record, openers: seq<Side>, s: Record, more: seq<Side>, posted: seq<Entry>)
    requires forall i, j :: 0 <= i < j < |issued| && issued[i] == issued[j] ==> LimitEcho(openers, issued[i])
    requires forall id :: id in issued ==> Used(r, openers, id)
    requires Mints(r, openers, s, more, posted) && openers <= more && |more| <= MAX_ROUNDS
    ensures var all := issued + Ids(posted);
            && (forall id :: id in all ==> Used(s, more, id))
            && (forall i, j :: 0 <= i < j < |all| && all[i] == all[j] ==> LimitEcho(more, all[i]))
  {
    var all := issued + Ids(posted);
    forall i, j | 0 <= i < j < |all| && all[i] == all[j] ensures LimitEcho(more, all[i]) {
      if j >= |issued| {
        assert posted[j - |issued|] in posted;
        assert i < |issued| ==> Used(r, openers, all[i]);
        assert i >= |issued| ==> all[i] == posted[i - |issued|].id;
      }
    }
  }

  lemma MutateIssued(w: World, caller: Caller, req: Request, now: int)
    requires WorldInv(w) && IssuedInv(w)
    ensures IssuedInv(Mutated(w, caller, req, now))
  {
    var next := Mutated(w, caller, req, now);
    if next != w {
      var r := w.hub.session.value;
      var c := Apply(r, caller, req, now).value;
      ApplyMints(r, w.openers, caller, req, now);
      ApplyKeeps(r, caller, req, now);
      RoundIdsGrow(r, caller, req, now);
      AppendIssued(w.issued, r, w.openers, c.record, next.openers, c.posted);
      OpeningIssued(r, w.openers, caller, req, now);
      assert forall id :: id in next.issued <==> id in w.issued || id in Ids(c.posted);
    }
  }

  /** The change that begins a round posts its opening notices. */
  lemma OpeningIssued(r: Record, openers: seq<Side>, caller: Caller, req: Request, now: int)
    requires RecordInv(r) && |openers| == r.round.no && Apply(r, caller, req, now).Ok?
    ensures var c := Apply(r, caller, req, now).value;
            var more := if c.record.round.no != r.round.no then openers + [Opener(r.card, caller)] else openers;
            forall id: DeliveryId :: Opening(c.record, more, id) ==> Opening(r, openers, id) || id in Ids(c.posted)
  {
    var c := Apply(r, caller, req, now).value;
    if c.record.round.no != r.round.no {
      RoundIdsGrow(r, caller, req, now);
      BeginsByInterrupt(r, caller, req, now);
      var side := Participant(r.card, caller).value;
      assert c == ApplyInterrupt(r, side, req.freshRound, now).value;
      assert |c.posted| == 4;
      forall id: DeliveryId | Opening(c.record, openers + [side], id) ensures id in Ids(c.posted) {
        match id.suffix.to
        case Source => assert id == Ids(c.posted)[2];
        case Target => assert id == Ids(c.posted)[3];
      }
    }
  }

  lemma BeginsByInterrupt(r: Record, caller: Caller, req: Request, now: int)
    requires Apply(r, caller, req, now).Ok? && Apply(r, caller, req, now).value.record.round.no != r.round.no
    ensures req.Report? && req.event == Some(InterruptEvent) && r.round.no < MAX_ROUNDS && Participant(r.card, caller).Some?
  {
    if req.Report? && req.event.Some? && req.event != Some(CancelEvent) {
      match req.event.value
      case InterruptEvent =>
      case _ =>
    }
  }

  /** Within a round: the record has become `s`, and what was posted was minted for it. */
  lemma IssuedGrows(w: World, next: World, s: Record, posted: seq<Entry>)
    requires IssuedInv(w) && w.hub.session.Some? && next.hub.session == Some(s) && next.openers == w.openers
    requires next.issued == w.issued + Ids(posted) && s.round.no == w.hub.session.value.round.no && |w.openers| <= MAX_ROUNDS
    requires Mints(w.hub.session.value, w.openers, s, w.openers, posted)
    ensures IssuedInv(next)
  {
    AppendIssued(w.issued, w.hub.session.value, w.openers, s, w.openers, posted);
    assert forall id: DeliveryId :: Opening(s, w.openers, id) ==> Opening(w.hub.session.value, w.openers, id);
  }

  lemma TicketMints(r: Record, openers: seq<Side>, ticket: Ticket, now: int)
    requires RecordInv(r) && TicketReady(r, r.round.id, now)
    ensures var s := Ticketed(r, ticket, now);
            Mints(r, openers, s, openers, [TicketDelivery(s, Source, ticket, now), TicketDelivery(s, Target, ticket, now)])
  {
    MarksStayUsed(r, openers, Ticketed(r, ticket, now));
  }

  lemma SignIssued(w: World, e: Errand, signedAt: int, now: int)
    requires CoreInv(w) && IssuedInv(w)
    ensures IssuedInv(SignedBack(w, e, signedAt, now))
  {
    var next := SignedBack(w, e, signedAt, now);
    if next != w && w.hub.session.Some? && TicketReady(w.hub.session.value, e.job.roundId, now) {
      var ticket := Signed(BuildStatement(e.snapshot, signedAt).value);
      var s := Ticketed(w.hub.session.value, ticket, now);
      TicketMints(w.hub.session.value, w.openers, ticket, now);
      IssuedGrows(w, next, s, [TicketDelivery(s, Source, ticket, now), TicketDelivery(s, Target, ticket, now)]);
    }
  }

  lemma ExpiryMints(r: Record, openers: seq<Side>, now: int)
    requires RecordInv(r) && !r.phase.Expired?
    ensures Mints(r, openers, Lapsed(r, now), openers, DeviceUpdates(Lapsed(r, now), ByExpiry, now))
  {
    MarksStayUsed(r, openers, Lapsed(r, now));
  }

  lemma AlarmIssued(w: World, now: int)
    requires CoreInv(w) && IssuedInv(w)
    ensures IssuedInv(Alarmed(w, now))
  {
    if w.hub.session.Some? && !w.hub.session.value.phase.Expired? && w.hub.session.value.card.expiresAt <= now {
      var r := w.hub.session.value;
      var s := Lapsed(r, now);
      var posted := DeviceUpdates(s, ByExpiry, now);
      ExpiryMints(r, w.openers, now);
      assert Alarmed(w, now).hub.outbox == posted && Alarmed(w, now).issued == w.issued + Ids(posted) by {
        assert [] + posted == posted;
        AddAllFresh([], posted);
      }
      IssuedGrows(w, Alarmed(w, now), s, posted);
    }
  }

  lemma {:induction false} AddAllFresh(o: seq<Entry>, posted: seq<Entry>)
    requires DistinctIds(o + posted)
    ensures AddAll(o, posted) == o + posted
    decreases |posted|
  {
    if |posted| == 0 {
      assert o + posted == o;
    } else {
      assert !HasId(o, posted[0].id) by {
        assert (o + posted)[|o|] == posted[0];
        assert forall i :: 0 <= i < |o| ==> (o + posted)[i] == o[i];
      }
      assert (o + [posted[0]]) + posted[1..] == o + posted;
      AddAllFresh(o + [posted[0]], posted[1..]);
    }
  }

  lemma ActionIssued(w: World, a: Action, now: int)
    requires WorldInv(w) && IssuedInv(w) && w.clock <= now
    ensures IssuedInv(Perform(w, a, now))
  {
    match a
    case DoMutate(caller, req) => MutateIssued(w, caller, req, now);
    case DoSign(errand, signedAt) => SignIssued(w, errand, signedAt, now);
    case DoAlarm => AlarmIssued(w, now);
    case DoCreate(caller, creation, roundId) => CreateIssued(w, caller, creation, roundId, now);
    case _ => SameIssued(w, Perform(w, a, now), a, now);
  }

  lemma SameIssued(w: World, next: World, a: Action, now: int)
    requires IssuedInv(w) && Quiet(a) && next == Perform(w, a, now)
    ensures IssuedInv(next)
  {
    QuietSpares(w, a, now);
  }

  lemma CreateIssued(w: World, caller: Caller, c: Creation, roundId: string, now: int)
    requires IssuedInv(w) && (w.hub.session.None? && !w.deleted ==> w.issued == [])
    ensures IssuedInv(Created(w, caller, c, roundId, now))
  {
    if w.hub.session.Some? || w.deleted { CreateSpares(w, caller, c, roundId, now); }
  }

  lemma {:induction false} RunIssued(h: History)
    ensures IssuedInv(Run(h))
  {
    match h
    case Start =>
    case Then(before, at, action) =>
      RunIssued(before);
      RunKeeps(before);
      if Run(before).clock <= at {
        ActionIssued(Run(before), action, at);
      }
  }

  /** Over a whole run no delivery id is offered to the outbox twice, except the two notices of the
      fourth interruption when the endpoint that opened round four caused it. */
  lemma {:induction false} IdsIssuedOnce(h: History, i: nat, j: nat)
    requires i < j < |Run(h).issued| && Run(h).issued[i] == Run(h).issued[j]
    ensures LimitEcho(Run(h).openers, Run(h).issued[i])
  {
    RunIssued(h);
  }

  /** In every reachable state, an accepted request reuses an id exactly when it is an interrupt of
      round four by the endpoint that opened it. */
  lemma {:induction false} ReuseIffLimitEcho(h: History, caller: Caller, req: Request, now: int)
    requires Run(h).hub.session.Some? && Apply(Run(h).hub.session.value, caller, req, now).Ok?
    ensures var w := Run(h);
            var r := w.hub.session.value;
            (exists e :: e in Apply(r, caller, req, now).value.posted && e.id in w.issued) <==>
              AtLimit(r, caller, req) && |w.openers| == MAX_ROUNDS && w.openers[MAX_ROUNDS - 1] == Opener(r.card, caller)
  {
    RunIssued(h);
    RunKeeps(h);
    var w := Run(h);
    var r := w.hub.session.value;
    var c := Apply(r, caller, req, now).value;
    ApplyMints(r, w.openers, caller, req, now);
    if AtLimit(r, caller, req) && w.openers[MAX_ROUNDS - 1] == Opener(r.card, caller) {
      LimitMints(r, w.openers, Participant(r.card, caller).value, req.freshRound, now);
      assert c.posted[0] in c.posted && Opening(r, w.openers, c.posted[0].id);
    }
  }

  // ----- what is queued was issued -----

  ghost predicate QueuedIssued(w: World) {
    forall id: DeliveryId :: HasId(w.hub.outbox, id) ==> id in w.issued
  }

  lemma InIds(items: seq<Entry>, id: DeliveryId)
    ensures HasId(items, id) <==> id in Ids(items)
  {
    if HasId(items, id) {
      var i :| 0 <= i < |items| && items[i].id == id;
      assert Ids(items)[i] == id;
    }
  }

  lemma MutateQueued(w: World, caller: Caller, req: Request, now: int)
    requires WorldInv(w) && QueuedIssued(w)
    ensures QueuedIssued(Mutated(w, caller, req, now))
  {
    var next := Mutated(w, caller, req, now);
    if next != w {
      var c := Apply(w.hub.session.value, caller, req, now).value;
      AddAllDistinct(if c.cleared then [] else w.hub.outbox, c.posted);
      forall id: DeliveryId | HasId(next.hub.outbox, id) ensures id in next.issued { InIds(c.posted, id); }
    }
  }

  lemma SignQueued(w: World, e: Errand, signedAt: int, now: int)
    requires WorldInv(w) && QueuedIssued(w)
    ensures QueuedIssued(SignedBack(w, e, signedAt, now))
  {
    var next := SignedBack(w, e, signedAt, now);
    if next != w && w.hub.session.Some? {
      DropDistinct(w.hub.outbox, e.job.id);
      if TicketReady(w.hub.session.value, e.job.roundId, now) {
        var ticket := Signed(BuildStatement(e.snapshot, signedAt).value);
        var s := Ticketed(w.hub.session.value, ticket, now);
        var posted := [TicketDelivery(s, Source, ticket, now), TicketDelivery(s, Target, ticket, now)];
        AddAllDistinct(Drop(w.hub.outbox, e.job.id), posted);
        forall id: DeliveryId | HasId(next.hub.outbox, id) ensures id in next.issued { InIds(posted, id); }
      }
    }
  }

  lemma AlarmQueued(w: World, now: int)
    requires WorldInv(w) && QueuedIssued(w)
    ensures QueuedIssued(Alarmed(w, now))
  {
    var next := Alarmed(w, now);
    forall id: DeliveryId | HasId(next.hub.outbox, id) ensures id in next.issued { InIds(next.hub.outbox, id); }
  }

  lemma CreateQueued(w: World, caller: Caller, c: Creation, roundId: string, now: int)
    requires WorldInv(w) && QueuedIssued(w)
    ensures QueuedIssued(Created(w, caller, c, roundId, now))
  {
    var next := Created(w, caller, c, roundId, now);
    forall id: DeliveryId | HasId(next.hub.outbox, id) ensures id in next.issued { InIds(next.hub.outbox, id); }
  }

  lemma ActionQueued(w: World, a: Action, now: int)
    requires WorldInv(w) && QueuedIssued(w)
    ensures QueuedIssued(Perform(w, a, now))
  {
    match a
    case DoCreate(caller, creation, roundId) => CreateQueued(w, caller, creation, roundId, now);
    case DoMutate(caller, req) => MutateQueued(w, caller, req, now);
    case DoDeviceAck(caller, id) => if w.hub.session.Some? { DropDistinct(w.hub.outbox, id); }
    case DoSign(errand, signedAt) => SignQueued(w, errand, signedAt, now);
    case DoAlarm => AlarmQueued(w, now);
    case DoFinish(errand) => FinishQueued(w, errand, now);
    case DoRetry(id, spread) => PostponeKeeps(w.hub.outbox, id, now, spread);
    case DoPoll(_, _) =>
    case DoTake(_) =>
    case DoReschedule =>
  }

  lemma FinishQueued(w: World, errand: Errand, now: int)
    requires OutboxInv(w) && QueuedIssued(w)
    ensures QueuedIssued(Finished(w, errand, now))
  {
    if Finished(w, errand, now) != w && w.hub.session.Some? {
      DropDistinct(w.hub.outbox, if errand.DropJob? then errand.job.id else errand.item.id);
    }
  }

  lemma {:induction false} RunQueued(h: History)
    ensures QueuedIssued(Run(h))
  {
    match h
    case Start =>
    case Then(before, at, action) =>
      RunQueued(before);
      RunKeeps(before);
      if Run(before).clock <= at {
        ActionQueued(Run(before), action, at);
      }
  }

  /** Nothing a transition posts is swallowed by the duplicate check of the outbox: in every reachable
      state all of it is queued, in order, behind what was kept. */
  lemma {:induction false} PostedIsQueued(h: History, caller: Caller, req: Request, now: int)
    requires Run(h).hub.session.Some? && Apply(Run(h).hub.session.value, caller, req, now).Ok?
    ensures var c := Apply(Run(h).hub.session.value, caller, req, now).value;
            Post(c, Run(h).hub.outbox) == (if c.cleared then [] else Run(h).hub.outbox) + c.posted
  {
    RunIssued(h);
    RunQueued(h);
    RunKeeps(h);
    var w := Run(h);
    var r := w.hub.session.value;
    var c := Apply(r, caller, req, now).value;
    var kept := if c.cleared then [] else w.hub.outbox;
    ApplyMints(r, w.openers, caller, req, now);
    if AtLimit(r, caller, req) { LimitClears(r, caller, req, now); }
    forall i, j | 0 <= i < j < |kept + c.posted| ensures (kept + c.posted)[i].id != (kept + c.posted)[j].id {
      if i < |kept| <= j {
        assert HasId(w.hub.outbox, kept[i].id);
        assert c.posted[j - |kept|] in c.posted;
      }
    }
    AddAllFresh(kept, c.posted);
  }

  lemma LimitClears(r: Record, caller: Caller, req: Request, now: int)
    requires Apply(r, caller, req, now).Ok? && AtLimit(r, caller, req)
    ensures Apply(r, caller, req, now).value.cleared
  {
  }
}
