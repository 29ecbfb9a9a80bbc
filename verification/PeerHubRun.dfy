/** Runs of one peer session: interleavings of its transactions with the work the drain
    loop carries out between two transactions. */
module PeerHubRun {
  import opened PeerHubTypes
  import opened PeerHubSteps

  /** Work taken from a stored outbox and finished by a later transaction. */
  datatype Errand =
    | Sign(job: Entry, snapshot: Record, takenAt: int)
    | DropJob(job: Entry)
    | MailOut(item: Entry)
    | PushOut(item: Entry)

  /** The stored object, the clock, the errands ever taken, and five books that exist only for the proofs:
      round ids in order, delivery ids in the order they were offered to the outbox, the rounds whose
      ticket was committed, and the endpoint that opened each round. An errand is never removed, so a
      run may finish it late, more than once, or not at all. `armedAt` is when the record, the outbox
      or the alarm last changed. */
  datatype World = World(
    hub: Hub, clock: int, armedAt: int, errands: set<Errand>, deleted: bool,
    roundIds: seq<string>, issued: seq<DeliveryId>, committed: seq<nat>, openers: seq<Side>)

  datatype Action =
    | DoCreate(caller: Caller, creation: Creation, roundId: string)
    | DoMutate(caller: Caller, req: Request)
    | DoPoll(caller: Caller, acked: set<DeliveryId>)
    | DoDeviceAck(caller: Caller, id: DeliveryId)
    | DoAlarm
    | DoTake(at: nat)
    | DoSign(errand: Errand, signedAt: int)
    | DoFinish(errand: Errand)
    | DoRetry(id: DeliveryId, spread: nat)
    | DoReschedule

  /** A finite run: what was done, one action after another, and when. */
  datatype History = Start | Then(before: History, at: int, action: Action)

  const START := World(EMPTY_HUB, 0, 0, {}, false, [], [], [], [])

  function Ids(items: seq<Entry>): (ids: seq<DeliveryId>)
    ensures |ids| == |items|
    ensures forall i :: 0 <= i < |items| ==> ids[i] == items[i].id
  {
    seq(|items|, i requires 0 <= i < |items| => items[i].id)
  }

  /** A round id is a UUID the object has just drawn: it never repeats. */
  predicate FreshId(w: World, req: Request) {
    req.Report? ==> req.freshRound !in w.roundIds
  }

  function Opener(c: Card, caller: Caller): Side {
    var side := Participant(c, caller);
    if side.Some? then side.value else Source
  }

  function Mutated(w: World, caller: Caller, req: Request, now: int): World {
    var outcome := Mutate(w.hub, caller, req, now);
    if !FreshId(w, req) || outcome.Err? then w
    else
      var r := w.hub.session.value;
      var c := Apply(r, caller, req, now).value;
      var began := c.record.round.no != r.round.no;
      w.(hub := outcome.value, issued := w.issued + Ids(c.posted),
         roundIds := if began then w.roundIds + [c.record.round.id] else w.roundIds,
         openers := if began then w.openers + [Opener(r.card, caller)] else w.openers)
  }

  function Created(w: World, caller: Caller, c: Creation, roundId: string, now: int): World {
    var outcome := Create(w.hub, caller, c, roundId, now);
    if w.deleted || !c.Parsed() || outcome.Err? then w
    else if w.hub.session.Some? then w.(hub := outcome.value)
    else w.(hub := outcome.value, roundIds := [roundId], issued := w.issued + Ids(outcome.value.outbox),
            openers := [c.initiator])
  }

  function Alarmed(w: World, now: int): World {
    var outcome := Alarm(w.hub, now);
    if outcome.None? then w.(hub := EMPTY_HUB, deleted := w.deleted || w.hub.session.Some?)
    else
      var expired := !w.hub.session.value.phase.Expired? && outcome.value.session.value.phase.Expired?;
      w.(hub := outcome.value, issued := if expired then w.issued + Ids(outcome.value.outbox) else w.issued)
  }

  /** The drain loop picks a due entry and decides what to do with it from the record it then reads. */
  function Taken(w: World, at: nat, now: int): World {
    if at >= |w.hub.outbox| || w.hub.outbox[at].nextAttemptAt > now || w.hub.session.None? then w
    else
      var item, r := w.hub.outbox[at], w.hub.session.value;
      var errand :=
        if item.IssueTicket? then if TicketReady(r, item.roundId, now) then Sign(item, r, now) else DropJob(item)
        else if item.endpoint.kind.Tool? then MailOut(item)
        else PushOut(item);
      w.(errands := w.errands + {errand})
  }

  /** The signer signs the snapshot it was sent, at its own time; the answer is then committed. */
  function SignedBack(w: World, e: Errand, signedAt: int, now: int): World {
    if e !in w.errands || !e.Sign? || !e.job.IssueTicket? || !(e.takenAt <= signedAt <= now) then w
    else
      match BuildStatement(e.snapshot, signedAt)
      case Err(_) => w
      case Ok(s) =>
        var next := CommitTicket(w.hub, e.job, Signed(s), now);
        if w.hub.session.Some? && TicketReady(w.hub.session.value, e.job.roundId, now) then
          var r := next.session.value;
          w.(hub := next, committed := w.committed + [r.round.no],
             issued := w.issued + Ids([TicketDelivery(r, Source, Signed(s), now), TicketDelivery(r, Target, Signed(s), now)]))
        else w.(hub := next)
  }

  function Finished(w: World, e: Errand, now: int): World {
    if e !in w.errands then w
    else
      match e
      case Sign(_, _, _) => w
      case DropJob(job) => w.(hub := Ack(w.hub, job.id, now))
      case MailOut(item) =>
        if !item.Deliver? then w
        else
          var outcome := Mail(w.hub, item, now);
          if outcome.Err? then w else w.(hub := outcome.value)
      case PushOut(item) =>
        if !item.Deliver? then w
        else if w.hub.session.None? || w.hub.session.value.card.endpoints.Of(item.side).party != item.endpoint then
          w.(hub := Ack(w.hub, item.id, now))
        else w
  }

  function Perform(w: World, a: Action, now: int): World {
    match a
    case DoCreate(caller, creation, roundId) => Created(w, caller, creation, roundId, now)
    case DoMutate(caller, req) => Mutated(w, caller, req, now)
    case DoPoll(caller, acked) => (var o := Poll(w.hub, caller, acked); if o.Err? then w else w.(hub := o.value))
    case DoDeviceAck(caller, id) => (var o := DeviceAck(w.hub, caller, id, now); if o.Err? then w else w.(hub := o.value))
    case DoAlarm => Alarmed(w, now)
    case DoTake(at) => Taken(w, at, now)
    case DoSign(errand, signedAt) => SignedBack(w, errand, signedAt, now)
    case DoFinish(errand) => Finished(w, errand, now)
    case DoRetry(id, spread) => w.(hub := Retry(w.hub, id, now, spread))
    case DoReschedule => w.(hub := Scheduled(w.hub, now))
  }

  // ----- actions that leave the record alone -----

  predicate SameRecord(w: World, next: World) {
    && next.hub.session == w.hub.session && next.deleted == w.deleted && next.roundIds == w.roundIds && next.issued == w.issued
    && next.committed == w.committed && next.openers == w.openers
  }

  predicate Quiet(a: Action) {
    a.DoPoll? || a.DoDeviceAck? || a.DoTake? || a.DoFinish? || a.DoRetry? || a.DoReschedule?
  }

  lemma PollQuiet(w: World, caller: Caller, acked: set<DeliveryId>)
    ensures var o := Poll(w.hub, caller, acked); o.Ok? ==> o.value.session == w.hub.session
  {
  }

  lemma DeviceAckQuiet(w: World, caller: Caller, id: DeliveryId, now: int)
    ensures var o := DeviceAck(w.hub, caller, id, now); o.Ok? ==> o.value.session == w.hub.session
  {
  }

  lemma FinishQuiet(w: World, e: Errand, now: int)
    ensures SameRecord(w, Finished(w, e, now))
  {
    if e in w.errands {
      match e
      case Sign(_, _, _) =>
      case DropJob(_) =>
      case MailOut(_) =>
      case PushOut(_) =>
    }
  }

  lemma QuietSpares(w: World, a: Action, now: int)
    requires Quiet(a)
    ensures SameRecord(w, Perform(w, a, now))
  {
    match a
    case DoPoll(caller, acked) => PollQuiet(w, caller, acked);
    case DoDeviceAck(caller, id) => DeviceAckQuiet(w, caller, id, now);
    case DoTake(_) =>
    case DoFinish(errand) => FinishQuiet(w, errand, now);
    case DoRetry(_, _) =>
    case DoReschedule =>
  }

  lemma CreateSpares(w: World, caller: Caller, c: Creation, roundId: string, now: int)
    requires w.hub.session.Some? || w.deleted
    ensures SameRecord(w, Created(w, caller, c, roundId, now))
  {
  }

  /** The clock moves on, and the arming time with it if storage was written. */
  function Tick(w: World, next: World, now: int): World {
    next.(clock := now, armedAt := if next.hub.(mail := w.hub.mail) != w.hub then now else w.armedAt)
  }

  /** Time never runs backwards: an action dated before the clock does not happen. */
  function Advance(w: World, action: Action, at: int): World {
    if at < w.clock then w else Tick(w, Perform(w, action, at), at)
  }

  function Run(h: History): World {
    match h
    case Start => START
    case Then(before, at, action) => Advance(Run(before), action, at)
  }

  ghost predicate Reachable(w: World) {
    exists h: History :: Run(h) == w
  }

  lemma Extends(w: World, a: Action, now: int)
    requires Reachable(w)
    ensures Reachable(Advance(w, a, now))
  {
    var h: History :| Run(h) == w;
    assert Run(Then(h, now, a)) == Advance(w, a, now);
  }

  predicate Prefix(p: History, h: History) {
    p == h || (h.Then? && Prefix(p, h.before))
  }
}
