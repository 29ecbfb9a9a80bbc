/** The peer-session object itself: its stored fields, the transactions that change them in place, and the calls
    and drain sections made of them. `world` is the run that the object is on; every call moves it along that run
    by one action, so whatever holds in every run holds of the object. */
module PeerSessionDO {
  import opened Prelude
  import opened PeerHubTypes
  import opened PeerHubSteps
  import opened PeerHubInvariant
  import opened PeerHubRun
  import opened PeerHubSafety
  import opened PeerHubTheorems
  import P = PeerSessionPromises

  // ----- outbox helpers -----

  lemma {:induction false} AddAllSplit(o: seq<Entry>, a: seq<Entry>, b: seq<Entry>)
    ensures AddAll(o, a + b) == AddAll(AddAll(o, a), b)
    decreases |a|
  {
    if |a| == 0 {
      assert a + b == b;
    } else {
      assert (a + b)[1..] == a[1..] + b;
      AddAllSplit(Add(o, a[0]), a[1..], b);
    }
  }

  lemma AddAllOne(o: seq<Entry>, e: Entry)
    ensures AddAll(o, [e]) == Add(o, e)
  {
    assert AddAll(Add(o, e), [e][1..]) == Add(o, e);
  }

  lemma AddAllTwo(o: seq<Entry>, a: Entry, b: Entry)
    ensures AddAll(o, [a, b]) == Add(Add(o, a), b)
  {
    assert [a, b] == [a] + [b];
    AddAllSplit(o, [a], [b]);
    AddAllOne(o, a);
    AddAllOne(Add(o, a), b);
  }

  method SomeWithId(outbox: seq<Entry>, id: DeliveryId) returns (found: bool)
    ensures found == HasId(outbox, id)
  {
    for i := 0 to |outbox|
      invariant !HasId(outbox[..i], id)
    {
      if outbox[i].id == id { return true; }
    }
    assert outbox[..|outbox|] == outbox;
    return false;
  }

  method Push(outbox: seq<Entry>, item: Entry) returns (next: seq<Entry>)
    ensures next == Add(outbox, item)
  {
    var found := SomeWithId(outbox, item.id);
    next := if found then outbox else outbox + [item];
  }

  /** One notice for each side; with `devicesOnly`, for the devices among them. */
  method EnqueueUpdates(record: Record, outbox: seq<Entry>, cause: Cause, now: int, devicesOnly: bool) returns (next: seq<Entry>)
    ensures next == AddAll(outbox, if devicesOnly then DeviceUpdates(record, cause, now) else Updates(record, cause, now))
  {
    next := outbox;
    var sides := [Source, Target];
    ghost var done: seq<Entry> := [];
    for i := 0 to 2
      invariant next == AddAll(outbox, done)
      invariant done == (if i >= 1 && (!devicesOnly || record.card.endpoints.source.party.kind.Device?) then [UpdateDelivery(record, cause, Source, now)] else [])
                      + (if i >= 2 && (!devicesOnly || record.card.endpoints.target.party.kind.Device?) then [UpdateDelivery(record, cause, Target, now)] else [])
    {
      var side := sides[i];
      if !devicesOnly || record.card.endpoints.Of(side).party.kind.Device? {
        var item := UpdateDelivery(record, cause, side, now);
        AddAllSplit(outbox, done, [item]);
        AddAllOne(next, item);
        next := Push(next, item);
        done := done + [item];
      }
    }
  }

  method WithoutId(outbox: seq<Entry>, id: DeliveryId) returns (next: seq<Entry>)
    ensures next == Drop(outbox, id)
  {
    next := [];
    for i := 0 to |outbox|
      invariant next + Drop(outbox[i..], id) == Drop(outbox, id)
    {
      assert outbox[i..][0] == outbox[i] && outbox[i..][1..] == outbox[i + 1..];
      if outbox[i].id != id { next := next + [outbox[i]]; }
    }
  }

  method WithoutAcked(items: seq<MailItem>, acked: set<DeliveryId>) returns (next: seq<MailItem>)
    ensures next == Keep(items, acked)
  {
    next := [];
    for i := 0 to |items|
      invariant next + Keep(items[i..], acked) == Keep(items, acked)
    {
      assert items[i..][0] == items[i] && items[i..][1..] == items[i + 1..];
      if items[i].id !in acked { next := next + [items[i]]; }
    }
  }

  /** The least due time. */
  method MinDue(outbox: seq<Entry>) returns (due: Option<int>)
    ensures due == EarliestDue(outbox)
  {
    due := None;
    var i := |outbox|;
    while i > 0
      invariant 0 <= i <= |outbox|
      invariant due == EarliestDue(outbox[i..])
    {
      i := i - 1;
      assert outbox[i..][1..] == outbox[i + 1..];
      if due.None? || outbox[i].nextAttemptAt < due.value { due := Some(outbox[i].nextAttemptAt); }
    }
  }

  method BackOff(outbox: seq<Entry>, id: DeliveryId, now: int, spread: nat) returns (next: seq<Entry>)
    ensures next == Postpone(outbox, id, now, spread)
  {
    next := outbox;
    for i := 0 to |outbox|
      invariant |next| == |outbox| && next[i..] == outbox[i..]
      invariant next[..i] == Postpone(outbox, id, now, spread)[..i]
    {
      PostponeAt(outbox, id, now, spread, i);
      if next[i].id == id {
        var attempts := next[i].attempts + 1;
        next := next[i := next[i].(attempts := attempts, nextAttemptAt := now + RetryDelay(attempts, spread))];
      }
    }
  }

  lemma {:induction false} PostponeAt(o: seq<Entry>, id: DeliveryId, now: int, spread: nat, i: nat)
    requires i < |o|
    ensures Postpone(o, id, now, spread)[i] ==
      if o[i].id == id then o[i].(attempts := o[i].attempts + 1, nextAttemptAt := now + RetryDelay(o[i].attempts + 1, spread)) else o[i]
  {
    if i > 0 { PostponeAt(o[1..], id, now, spread, i - 1); }
  }

  predicate FirstWith(receipts: seq<SignalReceipt>, id: DeliveryId, k: nat) {
    k < |receipts| && receipts[k].id == id && forall j :: 0 <= j < k ==> receipts[j].id != id
  }

  /** The first receipt with the id is found; none only if no receipt has it. */
  method LookUp(receipts: seq<SignalReceipt>, id: DeliveryId) returns (found: Option<SignalReceipt>)
    ensures found == FindReceipt(receipts, id)
    ensures found.Some? ==> exists k :: 0 <= k < |receipts| && receipts[k] == found.value && FirstWith(receipts, id, k)
    ensures found.None? <==> forall r :: r in receipts ==> r.id != id
  {
    for i := 0 to |receipts|
      invariant FindReceipt(receipts, id) == FindReceipt(receipts[i..], id)
      invariant forall j :: 0 <= j < i ==> receipts[j].id != id
    {
      if receipts[i].id == id {
        assert FirstWith(receipts, id, i);
        return Some(receipts[i]);
      }
    }
    return None;
  }

  method MarkActive(record: Record, side: Side, roundId: string, now: int) returns (next: Record)
    ensures next == MarkedActive(record, side, roundId, now)
  {
    next := record.(active := record.active.With(side, Some(Stamp(now, roundId))));
    if next.active.source.Some? && next.active.target.Some? { next := next.(phase := Active); }
  }

  method MarkComplete(record: Record, side: Side, roundId: string, now: int) returns (next: Record)
    ensures next == MarkedComplete(record, side, roundId, now)
  {
    next := record;
    if next.active.Of(side).None? { next := next.(active := next.active.With(side, Some(Stamp(now, roundId)))); }
    next := next.(completed := next.completed.With(side, Some(Stamp(now, roundId))));
    if next.completed.source.Some? && next.completed.target.Some? {
      next := next.(phase := Completed);
    } else if next.active.source.Some? && next.active.target.Some? {
      next := next.(phase := Active);
    }
  }

  /** What a mutation must leave behind: the transition of Apply, or the old state and its error. */
  predicate Mutates(before: Hub, caller: Caller, req: Request, now: int, outcome: Result<Record, HubError>, after: Hub) {
    match Mutate(before, caller, req, now)
    case Err(e) => outcome == Err(e) && after == before
    case Ok(h) => h.session.Some? && outcome == Ok(h.session.value) && after == h
  }

  /** The change is written, unless it overfills the outbox. */
  predicate Writes(before: Hub, c: Change, now: int, outcome: Result<Record, HubError>, after: Hub) {
    var queue := Post(c, before.outbox);
    if |queue| > OUTBOX_MAX then outcome == Err(OutboxBackpressure) && after == before
    else outcome == Ok(c.record) && after == Scheduled(before.(session := Some(c.record), outbox := queue), now)
  }

  /** The change is refused or written. */
  predicate Settles(before: Hub, o: Result<Change, HubError>, now: int, outcome: Result<Record, HubError>, after: Hub) {
    match o
    case Err(e) => outcome == Err(e) && after == before
    case Ok(c) => Writes(before, c, now, outcome, after)
  }

  class Session {
    var session: Option<Record>
    var outbox: seq<Entry>
    var mail: Sides<seq<MailItem>>
    var alarm: Option<int>
    ghost var world: World

    function Stored(): Hub
      reads this
    {
      Hub(session, outbox, mail, alarm)
    }

    /** The stored state is where some run has come. */
    ghost predicate Valid()
      reads this
    {
      Reachable(world) && world.hub == Stored()
    }

    constructor ()
      ensures Valid() && world == START
    {
      session, outbox, mail, alarm := None, [], Sides([], []), None;
      world := START;
      assert Run(Start) == START;
    }

    /** The run goes on by the action that has just been carried out. */
    ghost method Note(a: Action, now: int)
      requires Reachable(world) && world.clock <= now && Perform(world, a, now).hub == Stored()
      modifies `world
      ensures Valid() && world == Advance(old(world), a, now)
    {
      Extends(world, a, now);
      world := Advance(world, a, now);
    }

    /** What holds of the object at any time: its ticket certifies its record, a ticket that is wanted is queued for,
        the queues are bounded, and the alarm covers them. */
    lemma Promises()
      requires Valid()
      ensures session.Some? && session.value.ticket.Some? ==> Certifies(session.value.ticket.value, session.value)
      ensures session.Some? ==> |outbox| <= OUTBOX_MAX + (if session.value.ticket.Some? then 1 else 0)
      ensures session.Some? && TicketReady(session.value, session.value.round.id, world.clock) ==>
        HasId(outbox, DeliveryId(session.value.round.no, IssueTicketJob))
      ensures |mail.source| <= MAILBOX_MAX && |mail.target| <= MAILBOX_MAX
      ensures session.Some? ==> alarm.Some? && forall e :: e in outbox ==> alarm.value <= Max(world.armedAt + 1, e.nextAttemptAt)
    {
      P.ReachableKeeps(world);
      AlarmInvCovers(world);
    }

    /** setAlarm with the earliest of the queue and the expiry, at least one tick ahead. */
    method Schedule(now: int)
      modifies `alarm
      ensures Stored() == Scheduled(old(Stored()), now)
    {
      if session.Some? {
        var due := MinDue(outbox);
        var expiry := Expiry(session.value);
        alarm := Some(Max(now + 1, if due.Some? then Min(due.value, expiry) else expiry));
      }
    }

    method Create(caller: Caller, c: Creation, roundId: string, now: int) returns (outcome: Result<bool, HubError>)
      modifies `session, `outbox, `mail, `alarm
      ensures var wanted := PeerHubSteps.Create(old(Stored()), caller, c, roundId, now);
              && (outcome.Ok? <==> wanted.Ok?)
              && (match wanted case Err(e) => outcome == Err(e) && Stored() == old(Stored()) case Ok(h) => Stored() == h)
              && (outcome.Ok? ==> outcome.value == old(session).None?)
    {
      var candidate := NewRecord(c, roundId, now);
      if !Owns(candidate.card, caller) { return Err(NotFound); }
      if c.coordinator != caller.party { return Err(CoordinatorMismatch); }
      if session.Some? {
        var card := session.value.card;
        if !Owns(card, caller) { return Err(NotFound); }
        if card.coordinator != caller.party || card.coordinator != c.coordinator { return Err(CoordinatorMismatch); }
        if !SameIntent(card, candidate.card) { return Err(CreateConflict); }
        return Ok(false);
      }
      session := Some(candidate);
      outbox := [PrepareDelivery(candidate, Source, now), PrepareDelivery(candidate, Target, now)];
      Schedule(now);
      return Ok(true);
    }

    /** The end of every mutation: the outbox limit, the two writes and the alarm. */
    method Store(record: Record, queue: seq<Entry>, now: int) returns (outcome: Result<Record, HubError>)
      requires session.Some?
      modifies `session, `outbox, `mail, `alarm
      ensures |queue| > OUTBOX_MAX ==> outcome == Err(OutboxBackpressure) && Stored() == old(Stored())
      ensures |queue| <= OUTBOX_MAX ==>
        outcome == Ok(record) && Stored() == Scheduled(old(Stored()).(session := Some(record), outbox := queue), now)
    {
      if |queue| > OUTBOX_MAX { return Err(OutboxBackpressure); }
      session, outbox := Some(record), queue;
      Schedule(now);
      return Ok(record);
    }

    method Authorize(caller: Caller, side: Side, roundId: string, sessionHash: Token, roundHash: Token, now: int)
      returns (outcome: Result<Record, HubError>)
      modifies `session, `outbox, `mail, `alarm
      ensures Mutates(old(Stored()), caller, Request.Authorize(side, roundId, sessionHash, roundHash), now, outcome, Stored())
    {
      if session.None? || !Owns(session.value.card, caller) { return Err(NotFound); }
      if session.value.card.expiresAt <= now { return Err(SessionExpired); }
      var record, queue := session.value, outbox;
      if record.round.id != roundId { return Err(StaleRound); }
      if !IsSide(record.card, caller, side) { return Err(RoleMismatch); }
      if Terminal(record.phase) { return Err(BadState); }
      var mine := record.bindings.Of(side);
      if mine.session.Some? && mine.session.value != sessionHash { return Err(BindingConflict); }
      if StampedIn(record.approvals.Of(side), roundId) {
        if mine.round != Some(roundHash) { return Err(BindingConflict); }
        outcome := Store(record, queue, now);
        return;
      }
      if !record.phase.WaitingApproval? && !record.phase.Interrupted? { return Err(BadState); }
      record := record.(bindings := record.bindings.With(side, Binding(Some(sessionHash), Some(roundHash))));
      record := record.(approvals := record.approvals.With(side, Some(Stamp(now, roundId))));
      record := record.(updatedAt := now);
      if record.approvals.source.Some? && record.approvals.target.Some? { record := record.(phase := Signaling); }
      queue := EnqueueUpdates(record, queue, ByAuthorize(side), now, false);
      outcome := Store(record, queue, now);
    }

    method Signal(caller: Caller, role: SignalRole, roundId: string, s: PeerHubTypes.Signal, now: int)
      returns (outcome: Result<Record, HubError>)
      modifies `session, `outbox, `mail, `alarm
      ensures Mutates(old(Stored()), caller, SendSignal(role, roundId, s), now, outcome, Stored())
    {
      if session.None? || !Owns(session.value.card, caller) { return Err(NotFound); }
      if session.value.card.expiresAt <= now { return Err(SessionExpired); }
      var record, queue := session.value, outbox;
      if record.round.id != roundId { return Err(StaleRound); }
      if !IsSide(record.card, caller, record.card.SignalSide(role)) { return Err(RoleMismatch); }
      var id := Mint(record, SignalFrom(role, s.kind, s.seqNo));
      if !record.phase.Signaling? && !record.phase.Connecting? { return Err(BadState); }
      var receipt := LookUp(record.round.receipts, id);
      if receipt.Some? {
        if receipt.value.hash != s.hash { return Err(SignalConflict); }
        outcome := Store(record, queue, now);
        return;
      }
      if record.phase.Connecting? && !s.kind.Candidate? { return Err(BadState); }
      if !Exceeds(s.seqNo, record.round.lastSeq.Of(role)) { return Err(StaleSignal); }
      var round := record.round;
      match s.kind {
        case Offer =>
          if !role.Initiator? { return Err(RoleMismatch); }
          if !round.state.AwaitingOffer? { return Err(OfferExists); }
          round := round.(offerFp := Some(s.fingerprint), state := Offered);
        case Answer =>
          if !role.Responder? { return Err(RoleMismatch); }
          if !round.state.Offered? { return Err(BadState); }
          round := round.(answerFp := Some(s.fingerprint), state := Answered);
          record := record.(phase := Connecting);
        case Candidate =>
          if round.state.AwaitingOffer? { return Err(BadState); }
      }
      outcome := Forward(role, s, record.(round := round), id, now);
    }

    /** An accepted signal is noted in the record and queued for the other side; an answer asks for the ticket. */
    method Forward(role: SignalRole, s: PeerHubTypes.Signal, given: Record, id: DeliveryId, now: int)
      returns (outcome: Result<Record, HubError>)
      requires session.Some?
      modifies `session, `outbox, `mail, `alarm
      ensures var round := given.round.(lastSeq := given.round.lastSeq.With(role, Some(s.seqNo)),
                                        receipts := KeepReceipt(given.round.receipts, SignalReceipt(id, s.hash)));
              var next := given.(round := round, updatedAt := now);
              var posted := [SignalDelivery(next, role, s, now)] + (if s.kind.Answer? then [TicketJob(next, now)] else []);
              Writes(old(Stored()), Change(next, false, posted), now, outcome, Stored())
    {
      var record, queue, round := given, outbox, given.round;
      round := round.(lastSeq := round.lastSeq.With(role, Some(s.seqNo)));
      round := round.(receipts := KeepReceipt(round.receipts, SignalReceipt(id, s.hash)));
      record := record.(round := round, updatedAt := now);
      var delivery, job := SignalDelivery(record, role, s, now), TicketJob(record, now);
      AddAllOne(queue, delivery);
      AddAllTwo(queue, delivery, job);
      assert [delivery] + [] == [delivery] && [delivery] + [job] == [delivery, job];
      queue := Push(queue, delivery);
      if s.kind.Answer? { queue := Push(queue, job); }
      outcome := Store(record, queue, now);
    }

    method Event(caller: Caller, roundId: string, event: Option<EventKind>, failureCode: Option<string>, freshRound: string, now: int)
      returns (outcome: Result<Record, HubError>)
      modifies `session, `outbox, `mail, `alarm
      ensures Mutates(old(Stored()), caller, Report(roundId, event, failureCode, freshRound), now, outcome, Stored())
    {
      if session.None? || !Owns(session.value.card, caller) { return Err(NotFound); }
      if session.value.card.expiresAt <= now { return Err(SessionExpired); }
      var record, queue := session.value, outbox;
      var who := Participant(record.card, caller);
      if event != Some(FailEvent) && record.round.id != roundId { return Err(StaleRound); }
      if who.None? && record.card.coordinator != caller.party { return Err(NotParticipant); }
      if event == Some(CancelEvent) {
        if Terminal(record.phase) { outcome := Store(record, queue, now); return; }
        outcome := Announce(record.(phase := Cancelled), queue, false, [], CancelEvent, who, now);
      } else if who.None? {
        return Err(NotParticipant);
      } else if event == Some(InterruptEvent) {
        if !record.phase.Active? && !record.phase.Connecting? { return Err(BadState); }
        outcome := Interrupt(who.value, freshRound, now);
      } else if event == Some(ActiveEvent) {
        outcome := Active(who.value, roundId, now);
      } else if event == Some(CompleteEvent) {
        outcome := Complete(who.value, roundId, now);
      } else if event == Some(FailEvent) {
        outcome := Fail(who.value, failureCode, now);
      } else {
        return Err(InvalidEvent);
      }
    }

    method Active(side: Side, roundId: string, now: int) returns (outcome: Result<Record, HubError>)
      requires session.Some?
      modifies `session, `outbox, `mail, `alarm
      ensures Settles(old(Stored()), ApplyActive(old(session.value), side, roundId, now), now, outcome, Stored())
    {
      var record, queue := session.value, outbox;
      if StampedIn(record.active.Of(side), roundId) { outcome := Store(record, queue, now); return; }
      if (!record.phase.Connecting? && !record.phase.Active?) || record.ticket.None? { return Err(BadState); }
      record := MarkActive(record, side, roundId, now);
      outcome := Announce(record, queue, false, [], ActiveEvent, Some(side), now);
    }

    method Complete(side: Side, roundId: string, now: int) returns (outcome: Result<Record, HubError>)
      requires session.Some?
      modifies `session, `outbox, `mail, `alarm
      ensures Settles(old(Stored()), ApplyComplete(old(session.value), side, roundId, now), now, outcome, Stored())
    {
      var record, queue := session.value, outbox;
      if StampedIn(record.completed.Of(side), roundId) { outcome := Store(record, queue, now); return; }
      if !record.phase.Connecting? && !record.phase.Active? { return Err(BadState); }
      record := MarkComplete(record, side, roundId, now);
      outcome := Announce(record, queue, false, [], CompleteEvent, Some(side), now);
    }

    method Fail(side: Side, failureCode: Option<string>, now: int) returns (outcome: Result<Record, HubError>)
      requires session.Some?
      modifies `session, `outbox, `mail, `alarm
      ensures Settles(old(Stored()), ApplyFail(old(session.value), side, failureCode, now), now, outcome, Stored())
    {
      var record, queue := session.value, outbox;
      if Terminal(record.phase) { outcome := Store(record, queue, now); return; }
      var code := if failureCode.Some? then failureCode.value else "PEER_FAILED";
      if !ValidFailureCode(code) { return Err(InvalidFailure); }
      outcome := Announce(record.(phase := Failed, failureCode := Some(code)), queue, false, [], FailEvent, Some(side), now);
    }

    /** Begins the next round, or ends the session when there have been four. */
    method Interrupt(side: Side, freshRound: string, now: int) returns (outcome: Result<Record, HubError>)
      requires session.Some? && (session.value.phase.Active? || session.value.phase.Connecting?)
      modifies `session, `outbox, `mail, `alarm
      ensures var r := old(session.value);
              ApplyInterrupt(r, side, freshRound, now).Ok? &&
              Writes(old(Stored()), ApplyInterrupt(r, side, freshRound, now).value, now, outcome, Stored())
    {
      var record, queue: seq<Entry> := session.value, [];
      if record.round.no >= MAX_ROUNDS {
        record := record.(phase := Failed, failureCode := Some("ROUND_LIMIT"));
        outcome := Announce(record, queue, true, [], InterruptEvent, Some(side), now);
      } else {
        record := BeginRound(record, freshRound, now).(phase := Interrupted);
        var a, b := RoundDelivery(record, Source, now), RoundDelivery(record, Target, now);
        AddAllTwo(queue, a, b);
        queue := Push(queue, a);
        queue := Push(queue, b);
        record := record.(phase := WaitingApproval);
        outcome := Announce(record, queue, true, [a, b], InterruptEvent, Some(side), now);
      }
    }

    /** The common tail: stamp the time, drop the queue of a closed session, announce, store. */
    method Announce(record: Record, queue: seq<Entry>, ghost cleared: bool, ghost first: seq<Entry>,
                    event: EventKind, who: Option<Side>, now: int)
      returns (outcome: Result<Record, HubError>)
      requires session.Some? && queue == AddAll(if cleared then [] else outbox, first)
      modifies `session, `outbox, `mail, `alarm
      ensures Writes(old(Stored()), Settle(record, cleared, first, event, who, now), now, outcome, Stored())
    {
      var next, kept := record.(updatedAt := now), queue;
      if Terminal(next.phase) { kept := []; }
      var cause := ByEvent(event, who, next.round.no);
      AddAllSplit(if cleared then [] else outbox, first, Updates(next, cause, now));
      kept := EnqueueUpdates(next, kept, cause, now, false);
      outcome := Store(next, kept, now);
    }

    method Poll(caller: Caller, acked: set<DeliveryId>) returns (outcome: Result<seq<MailItem>, HubError>)
      modifies `mail
      ensures match PeerHubSteps.Poll(old(Stored()), caller, acked)
              case Err(e) => outcome == Err(e) && Stored() == old(Stored())
              case Ok(h) => Stored() == h && outcome == Ok(h.mail.Of(Participant(session.value.card, caller).value))
    {
      if session.None? || !Owns(session.value.card, caller) { return Err(NotFound); }
      var side := Participant(session.value.card, caller);
      if side.None? { return Err(NotParticipant); }
      var remaining := WithoutAcked(mail.Of(side.value), acked);
      mail := mail.With(side.value, remaining);
      return Ok(remaining);
    }

    method DeviceAck(caller: Caller, id: DeliveryId, now: int) returns (outcome: Result<(), HubError>)
      modifies `session, `outbox, `mail, `alarm
      ensures match PeerHubSteps.DeviceAck(old(Stored()), caller, id, now)
              case Err(e) => outcome == Err(e) && Stored() == old(Stored())
              case Ok(h) => outcome.Ok? && Stored() == h
    {
      if session.None? || !Owns(session.value.card, caller) { return Err(NotFound); }
      if Participant(session.value.card, caller).None? { return Err(NotParticipant); }
      var item := FindEntry(outbox, id);
      if item.Some? {
        var e := item.value;
        if !e.Deliver? || !e.endpoint.kind.Device? || e.endpoint != caller.party { return Err(DeliveryMismatch); }
        outbox := WithoutId(outbox, id);
        Schedule(now);
      }
      return Ok(());
    }

    /** The alarm handler up to the drain; the answer tells whether everything was deleted. */
    method OnAlarm(now: int) returns (deleted: bool)
      modifies `session, `outbox, `mail, `alarm
      ensures deleted == Alarm(old(Stored()), now).None?
      ensures Stored() == if deleted then EMPTY_HUB else Alarm(old(Stored()), now).value
    {
      deleted := session.None? || (session.value.phase.Expired? && Expiry(session.value) <= now);
      if deleted {
        session, outbox, mail, alarm := None, [], Sides([], []), None;
        return;
      }
      var record := session.value;
      if !record.phase.Expired? && record.card.expiresAt <= now {
        record := record.(phase := Expired, ticket := None, updatedAt := now, gcAt := Some(now + GC_GRACE_MS));
        var queue := EnqueueUpdates(record, [], ByExpiry, now, true);
        session, outbox := Some(record), queue;
      }
      Schedule(now);
    }

    method MoveToMailbox(item: Entry, now: int) returns (outcome: Result<(), HubError>)
      requires item.Deliver?
      modifies `session, `outbox, `mail, `alarm
      ensures match Mail(old(Stored()), item, now)
              case Err(e) => outcome == Err(e) && Stored() == old(Stored())
              case Ok(h) => outcome.Ok? && Stored() == h
    {
      var queued := SomeWithId(outbox, item.id);
      if !queued { return Ok(()); }
      var box := mail.Of(item.side);
      if !HasMail(box, item.id) {
        if |box| >= MAILBOX_MAX { return Err(MailboxBackpressure); }
        box := box + [MailItem(item.id, item.envelope)];
      }
      mail := mail.With(item.side, box);
      outbox := WithoutId(outbox, item.id);
      Schedule(now);
      return Ok(());
    }

    method StoreTicket(job: Entry, ticket: Ticket, now: int)
      requires job.IssueTicket?
      modifies `session, `outbox, `mail, `alarm
      ensures Stored() == CommitTicket(old(Stored()), job, ticket, now)
    {
      var queue := WithoutId(outbox, job.id);
      if session.Some? && TicketReady(session.value, job.roundId, now) {
        var record := session.value.(ticket := Some(ticket), updatedAt := now);
        var a, b := TicketDelivery(record, Source, ticket, now), TicketDelivery(record, Target, ticket, now);
        AddAllTwo(queue, a, b);
        queue := Push(queue, a);
        queue := Push(queue, b);
        session := Some(record);
      }
      outbox := queue;
      Schedule(now);
    }

    method Acknowledge(id: DeliveryId, now: int)
      modifies `session, `outbox, `mail, `alarm
      ensures Stored() == Ack(old(Stored()), id, now)
    {
      outbox := WithoutId(outbox, id);
      Schedule(now);
    }

    method RetryLater(id: DeliveryId, now: int, spread: nat)
      modifies `session, `outbox, `mail, `alarm
      ensures Stored() == Retry(old(Stored()), id, now, spread)
    {
      outbox := BackOff(outbox, id, now, spread);
      Schedule(now);
    }

    // ----- the calls -----

    /** POST /create: the session exists afterwards with this very intent; a repeat changes nothing. */
    method FetchCreate(caller: Caller, c: Creation, roundId: string, now: int) returns (outcome: Result<bool, HubError>)
      requires Valid() && world.clock <= now && !world.deleted && c.Parsed()
      modifies this
      ensures Valid() && world == Advance(old(world), DoCreate(caller, c, roundId), now)
      ensures outcome.Ok? ==> session.Some? && SameIntent(session.value.card, NewRecord(c, roundId, now).card)
      ensures outcome != Ok(true) ==> Stored() == old(Stored())
    {
      P.ReachableKeeps(world);
      P.CreatePromise(world, caller, c, roundId, now);
      outcome := Create(caller, c, roundId, now);
      Note(DoCreate(caller, c, roundId), now);
    }

    /** POST /authorize: afterwards this approval stands, and no session hash that was set before has changed. */
    method FetchAuthorize(caller: Caller, side: Side, roundId: string, sessionHash: Token, roundHash: Token, now: int)
      returns (outcome: Result<Record, HubError>)
      requires Valid() && world.clock <= now
      modifies this
      ensures Valid() && world == Advance(old(world), DoMutate(caller, Request.Authorize(side, roundId, sessionHash, roundHash)), now)
      ensures outcome.Ok? ==> old(session).Some? && session == Some(outcome.value) && P.MovesOn(old(session).value, outcome.value)
                              && P.Stands(outcome.value, side, roundId, sessionHash, roundHash)
      ensures outcome.Err? ==> Stored() == old(Stored())
    {
      ghost var req := Request.Authorize(side, roundId, sessionHash, roundHash);
      P.ReachableKeeps(world);
      P.MutatePromise(world, caller, req, now);
      outcome := Authorize(caller, side, roundId, sessionHash, roundHash, now);
      if outcome.Ok? { P.AuthorizePromise(old(session).value, caller, side, roundId, sessionHash, roundHash, now); }
      Note(DoMutate(caller, req), now);
    }

    /** POST /signal: afterwards the round has heard the number, unless the record is as it was. */
    method FetchSignal(caller: Caller, role: SignalRole, roundId: string, s: PeerHubTypes.Signal, now: int)
      returns (outcome: Result<Record, HubError>)
      requires Valid() && world.clock <= now
      modifies this
      ensures Valid() && world == Advance(old(world), DoMutate(caller, SendSignal(role, roundId, s)), now)
      ensures outcome.Ok? ==> old(session).Some? && session == Some(outcome.value) && P.MovesOn(old(session).value, outcome.value)
      ensures outcome.Ok? && outcome.value != old(session).value ==>
        outcome.value.round.id == roundId && !Exceeds(s.seqNo, outcome.value.round.lastSeq.Of(role))
      ensures outcome.Err? ==> Stored() == old(Stored())
    {
      P.ReachableKeeps(world);
      P.MutatePromise(world, caller, SendSignal(role, roundId, s), now);
      outcome := Signal(caller, role, roundId, s, now);
      if outcome.Ok? { P.SignalPromise(old(session).value, caller, role, roundId, s, now); }
      Note(DoMutate(caller, SendSignal(role, roundId, s)), now);
    }

    /** POST /event: the record comes strictly forward or stays; an interrupt opens the next round, with only its own
        deliveries queued, or ends the session. */
    method FetchEvent(caller: Caller, roundId: string, event: Option<EventKind>, failureCode: Option<string>, freshRound: string, now: int)
      returns (outcome: Result<Record, HubError>)
      requires Valid() && world.clock <= now && freshRound !in world.roundIds
      modifies this
      ensures Valid() && world == Advance(old(world), DoMutate(caller, Report(roundId, event, failureCode, freshRound)), now)
      ensures outcome.Ok? ==> old(session).Some? && session == Some(outcome.value) && P.MovesOn(old(session).value, outcome.value)
      ensures outcome.Ok? && event == Some(InterruptEvent) ==> P.Rotated(old(session).value, outcome.value, freshRound)
      ensures outcome.Ok? ==> forall e :: e in outbox ==> e.id.no == outcome.value.round.no
      ensures outcome.Err? ==> Stored() == old(Stored())
    {
      ghost var req := Report(roundId, event, failureCode, freshRound);
      P.ReachableKeeps(world);
      P.MutatePromise(world, caller, req, now);
      outcome := Event(caller, roundId, event, failureCode, freshRound, now);
      if outcome.Ok? && event == Some(InterruptEvent) {
        P.InterruptPromise(old(session).value, caller, roundId, failureCode, freshRound, now);
      }
      Note(DoMutate(caller, req), now);
      P.ReachableKeeps(world);
      assert outcome.Ok? ==> forall e :: e in world.hub.outbox ==> EntryOk(e, world.hub.session.value);
    }

    /** POST /inbox/poll: the caller's own mailbox without what it acknowledged; the other one is not touched. */
    method FetchPoll(caller: Caller, acked: set<DeliveryId>, now: int) returns (outcome: Result<seq<MailItem>, HubError>)
      requires Valid() && world.clock <= now
      modifies this
      ensures Valid() && world == Advance(old(world), DoPoll(caller, acked), now)
      ensures outcome.Ok? ==> session.Some? && Participant(session.value.card, caller).Some?
      ensures outcome.Ok? ==>
        var side := Participant(session.value.card, caller).value;
        && mail.Of(side) == outcome.value && mail.Of(side.Other()) == old(mail).Of(side.Other())
        && forall m :: m in outcome.value <==> m in old(mail).Of(side) && m.id !in acked
      ensures outcome.Err? ==> Stored() == old(Stored())
    {
      outcome := Poll(caller, acked);
      Note(DoPoll(caller, acked), now);
    }

    /** POST /delivery/ack: afterwards the delivery is not queued; every other one still is. */
    method FetchDeviceAck(caller: Caller, id: DeliveryId, now: int) returns (outcome: Result<(), HubError>)
      requires Valid() && world.clock <= now
      modifies this
      ensures Valid() && world == Advance(old(world), DoDeviceAck(caller, id), now)
      ensures outcome.Ok? ==> forall other: DeliveryId :: HasId(outbox, other) <==> HasId(old(outbox), other) && other != id
      ensures outcome.Err? ==> Stored() == old(Stored())
    {
      P.ReachableKeeps(world);
      outcome := DeviceAck(caller, id, now);
      if outcome.Ok? { P.AckPromise(old(outbox), id); }
      Note(DoDeviceAck(caller, id), now);
    }

    /** alarm: afterwards a session past its expiry is expired and without a ticket, or gone. */
    method HandleAlarm(now: int)
      requires Valid() && world.clock <= now
      modifies this
      ensures Valid() && world == Advance(old(world), DoAlarm, now)
      ensures session.Some? && session.value.card.expiresAt <= now ==> session.value.phase.Expired? && session.value.ticket.None?
    {
      P.ReachableKeeps(world);
      P.AlarmPromise(world, now);
      var deleted := OnAlarm(now);
      Note(DoAlarm, now);
    }

    // ----- the drain -----

    /** issueTicket, second half: a ticket that is stored now certifies the record as it is now. */
    method TicketArrives(e: Errand, signedAt: int, now: int)
      requires Valid() && world.clock <= now && e in world.errands && e.Sign? && e.job.IssueTicket? && e.takenAt <= signedAt <= now
      requires BuildStatement(e.snapshot, signedAt).Ok?
      modifies this
      ensures Valid() && world == Advance(old(world), DoSign(e, signedAt), now)
      ensures session.Some? && session.value.ticket.Some? ==> Certifies(session.value.ticket.value, session.value)
      ensures old(session).Some? && TicketReady(old(session).value, e.job.roundId, now) ==>
        session.Some? && session.value.ticket == Some(Signed(BuildStatement(e.snapshot, signedAt).value))
    {
      P.ReachableKeeps(world);
      P.TicketPromise(world, e, signedAt, now);
      StoreTicket(e.job, Signed(BuildStatement(e.snapshot, signedAt).value), now);
      Note(DoSign(e, signedAt), now);
      P.ReachableKeeps(world);
    }

    /** mail: a delivery that was queued is in the mailbox of its side, and not queued any more. */
    method MailArrives(item: Entry, now: int) returns (outcome: Result<(), HubError>)
      requires Valid() && world.clock <= now && item.Deliver? && MailOut(item) in world.errands
      modifies this
      ensures Valid() && world == Advance(old(world), DoFinish(MailOut(item)), now)
      ensures outcome.Ok? && HasId(old(outbox), item.id) ==> HasMail(mail.Of(item.side), item.id) && !HasId(outbox, item.id)
      ensures outcome.Err? ==> Stored() == old(Stored())
    {
      P.ReachableKeeps(world);
      ghost var queue, box := outbox, mail.Of(item.side);
      if world.hub.session.Some? { P.AckPromise(queue, item.id); }
      outcome := MoveToMailbox(item, now);
      assert HasMail(box + [MailItem(item.id, item.envelope)], item.id) by {
        assert (box + [MailItem(item.id, item.envelope)])[|box|].id == item.id;
      }
      Note(DoFinish(MailOut(item)), now);
    }

    /** ack of a job that is settled: exactly that entry leaves. */
    method JobDropped(job: Entry, now: int)
      requires Valid() && world.clock <= now && DropJob(job) in world.errands
      modifies this
      ensures Valid() && world == Advance(old(world), DoFinish(DropJob(job)), now)
      ensures forall other: DeliveryId :: HasId(outbox, other) <==> HasId(old(outbox), other) && other != job.id
    {
      P.ReachableKeeps(world);
      if world.hub.session.Some? { P.AckPromise(outbox, job.id); }
      Acknowledge(job.id, now);
      Note(DoFinish(DropJob(job)), now);
    }

    /** retry: the entry waits between one and thirty seconds more; the others are as they were. */
    method Postponed(id: DeliveryId, spread: nat, now: int)
      requires Valid() && world.clock <= now
      modifies this
      ensures Valid() && world == Advance(old(world), DoRetry(id, spread), now)
      ensures |outbox| == |old(outbox)|
      ensures forall i :: 0 <= i < |outbox| ==> outbox[i].id == old(outbox)[i].id
      ensures forall i :: 0 <= i < |outbox| && outbox[i].id != id ==> outbox[i] == old(outbox)[i]
      ensures forall i :: 0 <= i < |outbox| && outbox[i].id == id ==> now + 1_000 <= outbox[i].nextAttemptAt <= now + 30_000
    {
      forall i | 0 <= i < |outbox| && outbox[i].id == id
        ensures now + 1_000 <= Postpone(outbox, id, now, spread)[i].nextAttemptAt <= now + 30_000
      {
        PostponeAt(outbox, id, now, spread, i);
      }
      RetryLater(id, now, spread);
      Note(DoRetry(id, spread), now);
    }

    /** reschedule: the alarm covers everything that is queued. */
    method Rearmed(now: int)
      requires Valid() && world.clock <= now
      modifies this
      ensures Valid() && world == Advance(old(world), DoReschedule, now)
      ensures session.Some? ==> alarm.Some? && forall e :: e in outbox ==> alarm.value <= Max(world.armedAt + 1, e.nextAttemptAt)
    {
      Schedule(now);
      Note(DoReschedule, now);
      Promises();
    }
  }
}
