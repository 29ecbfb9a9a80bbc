/** What holds in every reachable state of a peer session at the Hub. */
module PeerHubSafety {
  import opened Prelude
  import opened PeerHubTypes
  import opened PeerHubSteps
  import opened PeerHubInvariant
  import opened PeerHubEvolution
  import opened PeerHubRun

  ghost predicate CoreInv(w: World) {
    && (w.hub.session.None? ==> w.hub.outbox == [] && (!w.deleted ==> w.errands == {}))
    && (w.deleted ==> w.hub.session.None?)
    && (w.hub.session.None? && !w.deleted ==> w.issued == [] && w.committed == [])
    && (w.hub.session.Some? ==>
          var r := w.hub.session.value;
          && RecordInv(r) && |w.roundIds| == |w.openers| == r.round.no && w.roundIds[r.round.no - 1] == r.round.id
          && Distinct(w.roundIds)
          && (r.phase.Expired? ==> r.card.expiresAt <= w.clock))
  }

  /** A ticket job that can no longer produce a ticket. */
  predicate Settled(job: Entry, r: Record, clock: int) {
    job.id.no < r.round.no
    || (job.id.no == r.round.no && r.round.state.Answered?
        && (!r.phase.Connecting? || r.ticket.Some? || r.card.expiresAt <= clock))
  }

  predicate IsJob(job: Entry, no: nat, roundId: string) {
    job.IssueTicket? && job.id == DeliveryId(no, IssueTicketJob) && job.roundId == roundId
  }

  /** The endpoint a delivery id is addressed to. */
  function Recipient(c: Card, suffix: Suffix): Side {
    match suffix
    case PrepareTo(to) => to
    case RoundPrepareTo(to) => to
    case SignalFrom(from, _, _) => c.SignalSide(from.Other())
    case IssueTicketJob => Source
    case TicketTo(to) => to
    case UpdateTo(_, to) => to
  }

  predicate Addressed(e: Entry, c: Card) {
    e.Deliver? && !e.id.suffix.IssueTicketJob? && e.side == Recipient(c, e.id.suffix) && e.endpoint == c.endpoints.Of(e.side).party
  }

  ghost predicate ErrandOk(e: Errand, r: Record, clock: int, roundIds: seq<string>) {
    match e
    case Sign(job, snapshot, takenAt) =>
      && RecordInv(snapshot) && snapshot.round.no <= |roundIds| && roundIds[snapshot.round.no - 1] == snapshot.round.id
      && IsJob(job, snapshot.round.no, snapshot.round.id)
      && TicketReady(snapshot, job.roundId, takenAt) && takenAt <= clock && Evolves(snapshot, r)
    case DropJob(job) => job.IssueTicket? && job.id.suffix == IssueTicketJob && Settled(job, r, clock)
    case MailOut(item) => Addressed(item, r.card)
    case PushOut(item) => Addressed(item, r.card)
  }

  ghost predicate ErrandsInv(w: World) {
    w.hub.session.Some? ==>
      forall e :: e in w.errands ==> ErrandOk(e, w.hub.session.value, w.clock, w.roundIds)
  }

  /** Every queued entry was minted in the current round, for the endpoint of its side. */
  predicate EntryOk(e: Entry, r: Record) {
    && e.id.no == r.round.no
    && (e.IssueTicket? ==> IsJob(e, r.round.no, r.round.id) && r.round.state.Answered?)
    && (e.Deliver? ==> Addressed(e, r.card))
  }

  predicate DistinctIds(o: seq<Entry>) {
    forall i, j :: 0 <= i < j < |o| ==> o[i].id != o[j].id
  }

  ghost predicate OutboxInv(w: World) {
    w.hub.session.Some? ==>
      var r := w.hub.session.value;
      && DistinctIds(w.hub.outbox)
      && (forall e :: e in w.hub.outbox ==> EntryOk(e, r))
      && (TicketReady(r, r.round.id, w.clock) ==> HasId(w.hub.outbox, DeliveryId(r.round.no, IssueTicketJob)))
      && |w.hub.outbox| <= OUTBOX_MAX + (if r.ticket.Some? then 1 else 0)
  }

  ghost predicate MailInv(w: World) {
    |w.hub.mail.source| <= MAILBOX_MAX && |w.hub.mail.target| <= MAILBOX_MAX
  }

  /** Tickets are committed in rounds of their own, and the current round shows it. */
  ghost predicate CommitInv(w: World) {
    && Distinct(w.committed)
    && (w.hub.session.Some? ==>
          var r := w.hub.session.value;
          forall n :: n in w.committed ==>
            n <= r.round.no && (n == r.round.no ==> r.round.state.Answered? && (r.ticket.Some? || r.phase.Expired?)))
  }

  ghost predicate AlarmInv(w: World) {
    && w.armedAt <= w.clock
    && (w.hub.session.Some? ==> w.hub.alarm == Some(AlarmTime(w.hub.session.value, w.hub.outbox, w.armedAt)))
  }

  ghost predicate WorldInv(w: World) {
    CoreInv(w) && ErrandsInv(w) && OutboxInv(w) && MailInv(w) && CommitInv(w) && AlarmInv(w)
  }

  // ----- outbox lemmas -----

  lemma {:induction false} DropHas(o: seq<Entry>, id: DeliveryId, other: DeliveryId)
    ensures HasId(Drop(o, id), other) <==> HasId(o, other) && other != id
  {
    if |o| != 0 {
      DropHas(o[1..], id, other);
      assert o == [o[0]] + o[1..];
      HasIdCons(o[0], o[1..], other);
      HasIdCons(o[0], Drop(o[1..], id), other);
    }
  }

  lemma {:induction false} DropDistinct(o: seq<Entry>, id: DeliveryId)
    requires DistinctIds(o)
    ensures DistinctIds(Drop(o, id))
    ensures forall other: DeliveryId :: HasId(Drop(o, id), other) <==> HasId(o, other) && other != id
    ensures HasId(o, id) ==> |Drop(o, id)| == |o| - 1
    ensures !HasId(o, id) ==> Drop(o, id) == o
  {
    forall other: DeliveryId ensures HasId(Drop(o, id), other) <==> HasId(o, other) && other != id {
      DropHas(o, id, other);
    }
    if |o| != 0 {
      var rest := o[1..];
      DropDistinct(rest, id);
      assert o == [o[0]] + rest;
      HasIdCons(o[0], rest, id);
      assert !HasId(rest, o[0].id);
    }
  }

  lemma HasIdCons(e: Entry, o: seq<Entry>, id: DeliveryId)
    ensures HasId([e] + o, id) <==> e.id == id || HasId(o, id)
  {
    if HasId(o, id) {
      var i :| 0 <= i < |o| && o[i].id == id;
      assert ([e] + o)[i + 1].id == id;
    }
    if e.id == id {
      assert ([e] + o)[0].id == id;
    }
  }

  lemma AddDistinct(o: seq<Entry>, item: Entry)
    requires DistinctIds(o)
    ensures DistinctIds(Add(o, item))
    ensures forall id: DeliveryId :: HasId(Add(o, item), id) <==> HasId(o, id) || id == item.id
    ensures forall e :: e in Add(o, item) ==> e in o || e == item
    ensures |Add(o, item)| <= |o| + 1
  {
    forall id: DeliveryId ensures HasId(Add(o, item), id) <==> HasId(o, id) || id == item.id {
      if HasId(o, id) {
        var i :| 0 <= i < |o| && o[i].id == id;
        assert Add(o, item)[i].id == id;
      }
      if !HasId(o, item.id) {
        assert Add(o, item)[|o|].id == item.id;
      }
    }
  }

  lemma {:induction false} AddAllDistinct(o: seq<Entry>, items: seq<Entry>)
    requires DistinctIds(o)
    ensures DistinctIds(AddAll(o, items))
    ensures forall id: DeliveryId :: HasId(AddAll(o, items), id) <==> HasId(o, id) || HasId(items, id)
    ensures forall e :: e in AddAll(o, items) ==> e in o || e in items
    ensures |AddAll(o, items)| <= |o| + |items|
    decreases |items|
  {
    if |items| != 0 {
      AddDistinct(o, items[0]);
      AddAllDistinct(Add(o, items[0]), items[1..]);
      assert items == [items[0]] + items[1..];
      forall id: DeliveryId ensures HasId(items, id) <==> items[0].id == id || HasId(items[1..], id) {
        HasIdCons(items[0], items[1..], id);
      }
    }
  }

  lemma PostponeKeeps(o: seq<Entry>, id: DeliveryId, now: int, spread: nat)
    ensures var p := Postpone(o, id, now, spread);
            && |p| == |o|
            && (DistinctIds(o) ==> DistinctIds(p))
            && (forall other: DeliveryId :: HasId(p, other) <==> HasId(o, other))
  {
    var p := Postpone(o, id, now, spread);
    forall other: DeliveryId ensures HasId(p, other) <==> HasId(o, other) {
      if HasId(o, other) {
        var i :| 0 <= i < |o| && o[i].id == other;
        assert p[i].id == other;
      }
      if HasId(p, other) {
        var i :| 0 <= i < |p| && p[i].id == other;
        assert o[i].id == other;
      }
    }
  }

  lemma {:induction false} PostponeEntries(o: seq<Entry>, id: DeliveryId, now: int, spread: nat, r: Record)
    requires forall e :: e in o ==> EntryOk(e, r)
    ensures forall e :: e in Postpone(o, id, now, spread) ==> EntryOk(e, r)
  {
    if |o| != 0 {
      PostponeEntries(o[1..], id, now, spread, r);
      assert o[0] in o;
    }
  }

  // ----- one lemma per action -----

  /** An errand stays in order while the record evolves, the clock runs and rounds are added. */
  lemma ErrandOkLater(e: Errand, r: Record, s: Record, clock: int, later: int, ids: seq<string>, more: seq<string>)
    requires ErrandOk(e, r, clock, ids) && Evolves(r, s) && clock <= later && ids <= more
    ensures ErrandOk(e, s, later, more)
  {
    match e
    case Sign(job, snapshot, takenAt) => EvolvesTransitive(snapshot, r, s);
    case DropJob(job) =>
    case MailOut(item) =>
    case PushOut(item) =>
  }

  lemma IdleKeeps(w: World, now: int)
    requires WorldInv(w) && w.clock <= now
    ensures WorldInv(Tick(w, w, now))
  {
    if w.hub.session.Some? {
      var r := w.hub.session.value;
      forall e | e in w.errands ensures ErrandOk(e, r, now, w.roundIds) {
        ErrandOkLater(e, r, r, w.clock, now, w.roundIds, w.roundIds);
      }
    }
  }

  lemma CreateKeeps(w: World, caller: Caller, c: Creation, roundId: string, now: int)
    requires WorldInv(w) && w.clock <= now
    ensures WorldInv(Tick(w, Created(w, caller, c, roundId, now), now))
  {
    IdleKeeps(w, now);
    var outcome := Create(w.hub, caller, c, roundId, now);
    if w.deleted || !c.Parsed() || outcome.Err? || w.hub.session.Some? {
      assert Created(w, caller, c, roundId, now) == w;
    } else {
      NewRecordKeeps(c, roundId, now);
    }
  }

  /** The outbox after a change: distinct ids, entries of the round the record is now in. */
  lemma PostKeeps(r: Record, c: Change, o: seq<Entry>)
    requires DistinctIds(o)
    requires forall e :: e in o ==> EntryOk(e, r)
    requires forall e :: e in c.posted ==> EntryOk(e, c.record)
    requires c.cleared || (c.record.round.no == r.round.no && c.record.round.id == r.round.id && c.record.card == r.card &&
                           (r.round.state.Answered? ==> c.record.round.state.Answered?))
    ensures DistinctIds(Post(c, o))
    ensures forall e :: e in Post(c, o) ==> EntryOk(e, c.record)
    ensures forall id: DeliveryId :: HasId(Post(c, o), id) <==> (!c.cleared && HasId(o, id)) || HasId(c.posted, id)
  {
    var base := if c.cleared then [] else o;
    AddAllDistinct(base, c.posted);
    assert forall id: DeliveryId :: !HasId([], id);
  }

  /** What a transition offers to the outbox: entries of the new record's round, the ticket job
      whenever the record has just become ready for a ticket, and nothing kept across a round. */
  predicate PostsWell(r: Record, c: Change, now: int) {
    && (forall e :: e in c.posted ==> EntryOk(e, c.record))
    && (!c.cleared ==> c.record.round.no == r.round.no)
    && (c.record.round.no == r.round.no ==> c.record.round.id == r.round.id)
    && c.record.round.no <= r.round.no + 1
    && (TicketReady(c.record, c.record.round.id, now) ==>
          (!c.cleared && TicketReady(r, r.round.id, now)) || HasId(c.posted, DeliveryId(c.record.round.no, IssueTicketJob)))
    && (c.record.round.no == r.round.no && r.ticket.Some? ==> c.record.ticket == r.ticket)
    && (c.record.phase.Expired? ==> c == Stutter(r))
  }

  lemma SettlePostsWell(r: Record, next: Record, cleared: bool, first: seq<Entry>, event: EventKind, who: Option<Side>, now: int)
    requires forall e :: e in first ==> EntryOk(e, next.(updatedAt := now))
    requires !cleared ==> next.round.no == r.round.no
    requires next.round.no == r.round.no ==> next.round.id == r.round.id && (r.ticket.Some? ==> next.ticket == r.ticket)
    requires next.round.no <= r.round.no + 1
    requires TicketReady(next, next.round.id, now) ==> !cleared && TicketReady(r, r.round.id, now)
    requires !next.phase.Expired?
    ensures PostsWell(r, Settle(next, cleared, first, event, who, now), now)
  {
  }

  /** A report that neither begins a round nor makes the record ready. */
  lemma ReportPostsWell(r: Record, next: Record, event: EventKind, who: Option<Side>, now: int)
    requires RecordInv(r) && next.round == r.round && next.ticket == r.ticket && next.card == r.card && !next.phase.Expired?
    requires next.phase.Connecting? ==> r.phase.Connecting?
    ensures PostsWell(r, Settle(next, false, [], event, who, now), now)
  {
    SettlePostsWell(r, next, false, [], event, who, now);
  }

  lemma InterruptPostsWell(r: Record, side: Side, freshRound: string, now: int)
    requires RecordInv(r) && ApplyInterrupt(r, side, freshRound, now).Ok?
    ensures PostsWell(r, ApplyInterrupt(r, side, freshRound, now).value, now)
  {
    if r.round.no < MAX_ROUNDS {
      var next := BeginRound(r, freshRound, now).(phase := WaitingApproval);
      SettlePostsWell(r, next, true, [RoundDelivery(next, Source, now), RoundDelivery(next, Target, now)], InterruptEvent, Some(side), now);
    }
  }

  lemma EventPostsWell(r: Record, caller: Caller, roundId: string, event: Option<EventKind>, code: Option<string>, freshRound: string, now: int)
    requires RecordInv(r) && ApplyEvent(r, caller, roundId, event, code, freshRound, now).Ok?
    ensures PostsWell(r, ApplyEvent(r, caller, roundId, event, code, freshRound, now).value, now)
  {
    var who := Participant(r.card, caller);
    if event == Some(CancelEvent) {
      if !Terminal(r.phase) {
        ReportPostsWell(r, r.(phase := Cancelled), CancelEvent, who, now);
      }
    } else if event == Some(InterruptEvent) {
      InterruptPostsWell(r, who.value, freshRound, now);
    } else {
      var side := who.value;
      match event.value
      case ActiveEvent =>
        if !StampedIn(r.active.Of(side), roundId) {
          ReportPostsWell(r, MarkedActive(r, side, roundId, now), ActiveEvent, who, now);
        }
      case CompleteEvent =>
        if !StampedIn(r.completed.Of(side), roundId) {
          ReportPostsWell(r, MarkedComplete(r, side, roundId, now), CompleteEvent, who, now);
        }
      case FailEvent =>
        if !Terminal(r.phase) {
          var failure := if code.Some? then code.value else "PEER_FAILED";
          ReportPostsWell(r, r.(phase := Failed, failureCode := Some(failure)), FailEvent, who, now);
        }
    }
  }

  lemma SignalPostsWell(r: Record, caller: Caller, role: SignalRole, roundId: string, s: Signal, now: int)
    requires RecordInv(r) && ApplySignal(r, caller, role, roundId, s, now).Ok?
    ensures PostsWell(r, ApplySignal(r, caller, role, roundId, s, now).value, now)
  {
    var c := ApplySignal(r, caller, role, roundId, s, now).value;
    if c != Stutter(r) && s.kind.Answer? {
      assert c.posted[1].id == DeliveryId(c.record.round.no, IssueTicketJob);
    }
  }

  lemma ApplyPostsWell(r: Record, caller: Caller, req: Request, now: int)
    requires RecordInv(r) && Apply(r, caller, req, now).Ok?
    ensures PostsWell(r, Apply(r, caller, req, now).value, now)
  {
    match req
    case Authorize(_, _, _, _) =>
    case SendSignal(role, roundId, signal) => SignalPostsWell(r, caller, role, roundId, signal, now);
    case Report(roundId, event, failureCode, freshRound) => EventPostsWell(r, caller, roundId, event, failureCode, freshRound, now);
  }

  lemma MutateKeeps(w: World, caller: Caller, req: Request, now: int)
    requires WorldInv(w) && w.clock <= now
    ensures WorldInv(Tick(w, Mutated(w, caller, req, now), now))
  {
    IdleKeeps(w, now);
    var next := Mutated(w, caller, req, now);
    if next != w {
      var r := w.hub.session.value;
      var c := Apply(r, caller, req, now).value;
      var after := Tick(w, next, now);
      assert after.hub.session == Some(c.record) && after.hub.outbox == Post(c, w.hub.outbox);
      assert after.errands == w.errands && after.deleted == w.deleted && after.committed == w.committed;
      ApplyEvolves(r, caller, req, now);
      ApplyPostsWell(r, caller, req, now);
      assert CoreInv(after) by { MutateCore(w, caller, req, now); }
      assert ErrandsInv(after) by {
        assert w.roundIds <= after.roundIds;
        forall e | e in w.errands ensures ErrandOk(e, c.record, now, after.roundIds) {
          ErrandOkLater(e, r, c.record, w.clock, now, w.roundIds, after.roundIds);
        }
      }
      assert OutboxInv(after) by { PostKeeps(r, c, w.hub.outbox); }
      assert CommitInv(after);
    }
  }

  lemma MutateCore(w: World, caller: Caller, req: Request, now: int)
    requires CoreInv(w) && w.clock <= now && Mutated(w, caller, req, now) != w
    ensures CoreInv(Tick(w, Mutated(w, caller, req, now), now))
  {
    var r := w.hub.session.value;
    ApplyKeeps(r, caller, req, now);
    ApplyEvolves(r, caller, req, now);
    ApplyPostsWell(r, caller, req, now);
    RoundIdsGrow(r, caller, req, now);
  }

  /** The only fresh round id a transition brings in is the one it was given. */
  lemma RoundIdsGrow(r: Record, caller: Caller, req: Request, now: int)
    requires RecordInv(r) && Apply(r, caller, req, now).Ok?
    ensures var s := Apply(r, caller, req, now).value.record;
            s.round.no != r.round.no ==> req.Report? && s.round.id == req.freshRound && s.round.no == r.round.no + 1
  {
    if req.Report? && req.event.Some? && req.event != Some(CancelEvent) {
      match req.event.value
      case InterruptEvent =>
      case _ =>
    }
  }

  /** Entries may leave the outbox, except the ticket job while it is still wanted. */
  lemma DropKeeps(w: World, hub: Hub, id: DeliveryId, now: int)
    requires WorldInv(w) && w.clock <= now
    requires hub.session == w.hub.session && hub.outbox == w.hub.outbox
    requires |hub.mail.source| <= MAILBOX_MAX && |hub.mail.target| <= MAILBOX_MAX
    requires w.hub.session.Some? && TicketReady(w.hub.session.value, w.hub.session.value.round.id, now) ==>
               id != DeliveryId(w.hub.session.value.round.no, IssueTicketJob)
    ensures WorldInv(Tick(w, w.(hub := Scheduled(hub.(outbox := Drop(hub.outbox, id)), now)), now))
  {
    IdleKeeps(w, now);
    if w.hub.session.Some? {
      DropDistinct(w.hub.outbox, id);
    }
  }

  lemma PollKeeps(w: World, caller: Caller, acked: set<DeliveryId>, now: int)
    requires WorldInv(w) && w.clock <= now
    ensures WorldInv(Tick(w, Perform(w, DoPoll(caller, acked), now), now))
  {
    IdleKeeps(w, now);
  }

  lemma DeviceAckKeeps(w: World, caller: Caller, id: DeliveryId, now: int)
    requires WorldInv(w) && w.clock <= now
    ensures WorldInv(Tick(w, Perform(w, DoDeviceAck(caller, id), now), now))
  {
    IdleKeeps(w, now);
    var outcome := DeviceAck(w.hub, caller, id, now);
    if outcome.Ok? && outcome.value != w.hub {
      var item := FindEntry(w.hub.outbox, id).value;
      assert EntryOk(item, w.hub.session.value);
      DropKeeps(w, w.hub, id, now);
    }
  }

  lemma AlarmErrands(w: World, now: int)
    requires CoreInv(w) && ErrandsInv(w) && w.clock <= now && w.hub.session.Some?
    requires w.hub.session.value.card.expiresAt <= now && !w.hub.session.value.phase.Expired?
    ensures forall e :: e in w.errands ==> ErrandOk(e, Lapsed(w.hub.session.value, now), now, w.roundIds)
  {
    var r := w.hub.session.value;
    ExpiryKeeps(r, now);
    forall e | e in w.errands ensures ErrandOk(e, Lapsed(r, now), now, w.roundIds) {
      ErrandOkLater(e, r, Lapsed(r, now), w.clock, now, w.roundIds, w.roundIds);
    }
  }

  lemma AlarmQueue(r: Record, now: int)
    ensures var gone := Lapsed(r, now);
            var o := AddAll([], DeviceUpdates(gone, ByExpiry, now));
            DistinctIds(o) && |o| <= 2 && forall e :: e in o ==> EntryOk(e, gone)
  {
    var gone := Lapsed(r, now);
    AddAllDistinct([], DeviceUpdates(gone, ByExpiry, now));
    assert forall e :: e in DeviceUpdates(gone, ByExpiry, now) ==> EntryOk(e, gone);
  }

  predicate RunsOut(w: World, now: int) {
    w.hub.session.Some? && !w.hub.session.value.phase.Expired? && w.hub.session.value.card.expiresAt <= now
  }

  lemma ExpiryAlarm(w: World, now: int)
    requires WorldInv(w) && w.clock <= now && RunsOut(w, now)
    ensures WorldInv(Tick(w, Alarmed(w, now), now))
  {
    var r := w.hub.session.value;
    var gone := Lapsed(r, now);
    var after := Tick(w, Alarmed(w, now), now);
    assert after.hub.session == Some(gone) && after.hub.outbox == AddAll([], DeviceUpdates(gone, ByExpiry, now));
    ExpiryKeeps(r, now);
    AlarmErrands(w, now);
    assert OutboxInv(after) by { AlarmQueue(r, now); }
  }

  lemma AlarmKeeps(w: World, now: int)
    requires WorldInv(w) && w.clock <= now
    ensures WorldInv(Tick(w, Alarmed(w, now), now))
  {
    if RunsOut(w, now) { ExpiryAlarm(w, now); } else { IdleKeeps(w, now); }
  }

  lemma TakeKeeps(w: World, at: nat, now: int)
    requires WorldInv(w) && w.clock <= now
    ensures WorldInv(Tick(w, Taken(w, at, now), now))
  {
    IdleKeeps(w, now);
    if Taken(w, at, now) != w {
      assert EntryOk(w.hub.outbox[at], w.hub.session.value);
    }
  }

  /** A sign errand whose round is still ready speaks about the record as it now is. */
  lemma SignErrandCurrent(w: World, e: Errand, now: int)
    requires WorldInv(w) && e in w.errands && e.Sign? && w.hub.session.Some? && w.clock <= now
    requires TicketReady(w.hub.session.value, e.job.roundId, now)
    ensures w.hub.session.value.round.no == e.snapshot.round.no && Evolves(e.snapshot, w.hub.session.value)
    ensures e.job.id == DeliveryId(w.hub.session.value.round.no, IssueTicketJob)
  {
    var r := w.hub.session.value;
    assert ErrandOk(e, r, w.clock, w.roundIds);
    assert w.roundIds[r.round.no - 1] == w.roundIds[e.snapshot.round.no - 1];
  }

  lemma SignKeeps(w: World, e: Errand, signedAt: int, now: int)
    requires WorldInv(w) && w.clock <= now
    ensures WorldInv(Tick(w, SignedBack(w, e, signedAt, now), now))
  {
    IdleKeeps(w, now);
    if SignedBack(w, e, signedAt, now) != w {
      var ticket := Signed(BuildStatement(e.snapshot, signedAt).value);
      if w.hub.session.Some? {
        var r := w.hub.session.value;
        assert ErrandOk(e, r, w.clock, w.roundIds);
        if TicketReady(r, e.job.roundId, now) {
          SignErrandCurrent(w, e, now);
          SnapshotStaysTrue(e.snapshot, r, signedAt);
          CommitKeeps(w, e.job, ticket, now);
          SignCommits(w, e, signedAt, now);
        } else {
          assert r.round.id == w.roundIds[r.round.no - 1];
          DropKeeps(w, w.hub, e.job.id, now);
        }
      }
    }
  }

  lemma SignCommits(w: World, e: Errand, signedAt: int, now: int)
    requires SignedBack(w, e, signedAt, now) != w && w.hub.session.Some? && e.job.IssueTicket?
    requires TicketReady(w.hub.session.value, e.job.roundId, now)
    ensures Tick(w, SignedBack(w, e, signedAt, now), now).(issued := w.issued)
            == Tick(w, Committed(w, e.job, Signed(BuildStatement(e.snapshot, signedAt).value), now), now)
  {
  }

  function Committed(w: World, job: Entry, ticket: Ticket, now: int): World
    requires job.IssueTicket? && w.hub.session.Some?
  {
    w.(hub := CommitTicket(w.hub, job, ticket, now), committed := w.committed + [w.hub.session.value.round.no])
  }

  lemma CommitKeeps(w: World, job: Entry, ticket: Ticket, now: int)
    requires WorldInv(w) && w.clock <= now && w.hub.session.Some? && job.IssueTicket?
    requires TicketReady(w.hub.session.value, job.roundId, now) && Certifies(ticket, w.hub.session.value)
    requires job.id == DeliveryId(w.hub.session.value.round.no, IssueTicketJob)
    ensures WorldInv(Tick(w, Committed(w, job, ticket, now), now))
  {
    CommitCore(w, job, ticket, now);
    CommitErrands(w, job, ticket, now);
    CommitOnce(w, job, ticket, now);
    CommitOutbox(w, job, ticket, now);
    CommitAlarm(w, job, ticket, now);
  }

  lemma CommitCore(w: World, job: Entry, ticket: Ticket, now: int)
    requires CoreInv(w) && w.clock <= now && w.hub.session.Some? && job.IssueTicket?
    requires TicketReady(w.hub.session.value, job.roundId, now) && Certifies(ticket, w.hub.session.value)
    ensures CoreInv(Tick(w, Committed(w, job, ticket, now), now))
  {
    TicketKeeps(w.hub.session.value, ticket, now);
  }

  lemma CommitErrands(w: World, job: Entry, ticket: Ticket, now: int)
    requires CoreInv(w) && ErrandsInv(w) && w.clock <= now && w.hub.session.Some? && job.IssueTicket?
    requires TicketReady(w.hub.session.value, job.roundId, now) && Certifies(ticket, w.hub.session.value)
    ensures ErrandsInv(Tick(w, Committed(w, job, ticket, now), now))
  {
    var r := w.hub.session.value;
    var next := Ticketed(r, ticket, now);
    TicketKeeps(r, ticket, now);
    forall e | e in w.errands ensures ErrandOk(e, next, now, w.roundIds) {
      ErrandOkLater(e, r, next, w.clock, now, w.roundIds, w.roundIds);
    }
  }

  lemma CommitOnce(w: World, job: Entry, ticket: Ticket, now: int)
    requires CommitInv(w) && w.hub.session.Some? && job.IssueTicket?
    requires TicketReady(w.hub.session.value, job.roundId, now)
    ensures CommitInv(Tick(w, Committed(w, job, ticket, now), now))
  {
    assert w.hub.session.value.round.no !in w.committed;
  }

  lemma CommitAlarm(w: World, job: Entry, ticket: Ticket, now: int)
    requires AlarmInv(w) && w.clock <= now && w.hub.session.Some? && job.IssueTicket?
    ensures AlarmInv(Tick(w, Committed(w, job, ticket, now), now))
  {
  }

  lemma CommitOutbox(w: World, job: Entry, ticket: Ticket, now: int)
    requires CoreInv(w) && OutboxInv(w) && w.clock <= now && w.hub.session.Some? && job.IssueTicket?
    requires TicketReady(w.hub.session.value, job.roundId, now)
    requires job.id == DeliveryId(w.hub.session.value.round.no, IssueTicketJob)
    ensures OutboxInv(Tick(w, Committed(w, job, ticket, now), now))
  {
    var next := Ticketed(w.hub.session.value, ticket, now);
    var after := Tick(w, Committed(w, job, ticket, now), now);
    CommitQueue(w, job, ticket, now);
    assert after.hub.session == Some(next) && next.ticket.Some?;
    assert after.hub.outbox == AddAll(Drop(w.hub.outbox, job.id), [TicketDelivery(next, Source, ticket, now), TicketDelivery(next, Target, ticket, now)]);
  }

  lemma CommitQueue(w: World, job: Entry, ticket: Ticket, now: int)
    requires OutboxInv(w) && w.hub.session.Some? && w.clock <= now
    requires TicketReady(w.hub.session.value, w.hub.session.value.round.id, now)
    requires job.id == DeliveryId(w.hub.session.value.round.no, IssueTicketJob)
    ensures var next := Ticketed(w.hub.session.value, ticket, now);
            var o := AddAll(Drop(w.hub.outbox, job.id), [TicketDelivery(next, Source, ticket, now), TicketDelivery(next, Target, ticket, now)]);
            DistinctIds(o) && (forall e :: e in o ==> EntryOk(e, next)) && |o| <= OUTBOX_MAX + 1
  {
    var r := w.hub.session.value;
    var next := Ticketed(r, ticket, now);
    var kept := Drop(w.hub.outbox, job.id);
    var a, b := TicketDelivery(next, Source, ticket, now), TicketDelivery(next, Target, ticket, now);
    DropDistinct(w.hub.outbox, job.id);
    assert |kept| <= OUTBOX_MAX - 1;
    AddAllDistinct(kept, [a, b]);
    assert EntryOk(a, next) && EntryOk(b, next);
    forall e | e in AddAll(kept, [a, b]) ensures EntryOk(e, next) {
      if e in kept {
        assert EntryOk(e, r);
      }
    }
  }

  lemma FinishKeeps(w: World, e: Errand, now: int)
    requires WorldInv(w) && w.clock <= now
    ensures WorldInv(Tick(w, Finished(w, e, now), now))
  {
    IdleKeeps(w, now);
    if Finished(w, e, now) != w {
      if w.hub.session.Some? {
        assert ErrandOk(e, w.hub.session.value, w.clock, w.roundIds);
        match e
        case DropJob(job) => DropKeeps(w, w.hub, job.id, now);
        case MailOut(item) =>
          var filled := Mail(w.hub, item, now).value;
          DropKeeps(w, w.hub.(mail := filled.mail), item.id, now);
        case PushOut(item) => DropKeeps(w, w.hub, item.id, now);
      }
    }
  }

  lemma RetryKeeps(w: World, id: DeliveryId, spread: nat, now: int)
    requires WorldInv(w) && w.clock <= now
    ensures WorldInv(Tick(w, Perform(w, DoRetry(id, spread), now), now))
  {
    IdleKeeps(w, now);
    if w.hub.session.Some? {
      PostponeKeeps(w.hub.outbox, id, now, spread);
      PostponeEntries(w.hub.outbox, id, now, spread, w.hub.session.value);
    }
  }

  lemma RescheduleKeeps(w: World, now: int)
    requires WorldInv(w) && w.clock <= now
    ensures WorldInv(Tick(w, Perform(w, DoReschedule, now), now))
  {
    IdleKeeps(w, now);
  }

  lemma DrainStepKeeps(w: World, a: Action, now: int)
    requires WorldInv(w) && w.clock <= now
    requires a.DoTake? || a.DoSign? || a.DoFinish? || a.DoRetry? || a.DoReschedule?
    ensures WorldInv(Tick(w, Perform(w, a, now), now))
  {
    match a
    case DoTake(at) => TakeKeeps(w, at, now);
    case DoSign(errand, signedAt) => SignKeeps(w, errand, signedAt, now);
    case DoFinish(errand) => FinishKeeps(w, errand, now);
    case DoRetry(id, spread) => RetryKeeps(w, id, spread, now);
    case DoReschedule => RescheduleKeeps(w, now);
  }

  lemma CallStepKeeps(w: World, a: Action, now: int)
    requires WorldInv(w) && w.clock <= now
    requires a.DoCreate? || a.DoMutate? || a.DoPoll? || a.DoDeviceAck? || a.DoAlarm?
    ensures WorldInv(Tick(w, Perform(w, a, now), now))
  {
    match a
    case DoCreate(caller, creation, roundId) => CreateKeeps(w, caller, creation, roundId, now);
    case DoMutate(caller, req) => MutateKeeps(w, caller, req, now);
    case DoPoll(caller, acked) => PollKeeps(w, caller, acked, now);
    case DoDeviceAck(caller, id) => DeviceAckKeeps(w, caller, id, now);
    case DoAlarm => AlarmKeeps(w, now);
  }

  lemma ActionKeeps(w: World, a: Action, now: int)
    requires WorldInv(w) && w.clock <= now
    ensures WorldInv(Tick(w, Perform(w, a, now), now))
  {
    if a.DoCreate? || a.DoMutate? || a.DoPoll? || a.DoDeviceAck? || a.DoAlarm? {
      CallStepKeeps(w, a, now);
    } else {
      DrainStepKeeps(w, a, now);
    }
  }

  lemma {:induction false} RunKeeps(h: History)
    ensures WorldInv(Run(h))
  {
    match h
    case Start =>
    case Then(before, at, action) =>
      RunKeeps(before);
      if Run(before).clock <= at {
        ActionKeeps(Run(before), action, at);
      }
  }
}
