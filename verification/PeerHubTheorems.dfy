/** The promises of the peer-session object, over every run. */
module PeerHubTheorems {
  import opened Prelude
  import opened PeerHubTypes
  import opened PeerHubSteps
  import opened PeerHubInvariant
  import opened PeerHubEvolution
  import opened PeerHubRun
  import opened PeerHubSafety

  /** What separates two moments of a life: the record evolved, or the object is gone. */
  predicate Later(w: World, next: World) {
    if w.hub.session.None? then !w.deleted || (next.deleted && next.hub.session.None?)
    else if next.hub.session.None? then next.deleted
    else Evolves(w.hub.session.value, next.hub.session.value)
  }

  lemma MutatedLater(w: World, caller: Caller, req: Request, now: int)
    requires CoreInv(w)
    ensures Later(w, Mutated(w, caller, req, now))
  {
    if Mutated(w, caller, req, now) != w { ApplyEvolves(w.hub.session.value, caller, req, now); }
  }

  lemma SignedLater(w: World, e: Errand, signedAt: int, now: int)
    requires WorldInv(w) && w.clock <= now
    ensures Later(w, SignedBack(w, e, signedAt, now))
  {
    if w.hub.session.Some? && SignedBack(w, e, signedAt, now) != w {
      var r := w.hub.session.value;
      if TicketReady(r, e.job.roundId, now) {
        SignErrandCurrent(w, e, now);
        SnapshotStaysTrue(e.snapshot, r, signedAt);
        TicketKeeps(r, Signed(BuildStatement(e.snapshot, signedAt).value), now);
      }
    }
  }

  lemma PerformLater(w: World, a: Action, now: int)
    requires WorldInv(w) && w.clock <= now
    ensures Later(w, Perform(w, a, now))
  {
    match a
    case DoMutate(caller, req) => MutatedLater(w, caller, req, now);
    case DoSign(errand, signedAt) => SignedLater(w, errand, signedAt, now);
    case DoAlarm => AlarmedLater(w, now);
    case DoCreate(caller, creation, roundId) =>
    case _ => QuietSpares(w, a, now);
  }

  lemma AlarmedLater(w: World, now: int)
    requires CoreInv(w)
    ensures Later(w, Alarmed(w, now))
  {
    if w.hub.session.Some? && !w.hub.session.value.phase.Expired? { ExpiryKeeps(w.hub.session.value, now); }
  }

  lemma LaterTransitive(u: World, v: World, w: World)
    requires Later(u, v) && Later(v, w) && u.hub.session.Some?
    requires v.deleted ==> v.hub.session.None?
    ensures Later(u, w)
  {
    if v.hub.session.Some? && w.hub.session.Some? {
      EvolvesTransitive(u.hub.session.value, v.hub.session.value, w.hub.session.value);
    }
  }

  /** Between any two moments of a run the record only evolves: session hashes, rounds, the frozen
      negotiation and terminal phases behave as Evolves says, until the object is deleted. */
  lemma {:induction false} RunEvolves(p: History, h: History)
    requires Prefix(p, h) && Run(p).hub.session.Some?
    ensures Later(Run(p), Run(h))
  {
    if p != h {
      match h
      case Then(before, at, action) =>
        RunEvolves(p, before);
        RunKeeps(before);
        if Run(before).clock <= at {
          PerformLater(Run(before), action, at);
        }
        LaterTransitive(Run(p), Run(before), Run(h));
    }
  }

  /** Whatever runs between the snapshot sent to the signer and the commit, a ticket that is committed
      certifies the record it is stored in; and each round commits at most one. */
  lemma TicketNeverStale(h: History)
    ensures var w := Run(h);
            && (w.hub.session.Some? && w.hub.session.value.ticket.Some? ==> Certifies(w.hub.session.value.ticket.value, w.hub.session.value))
            && Distinct(w.committed)
  {
    RunKeeps(h);
  }

  /** The answer of the signer is only ever committed to the record it speaks about. */
  lemma {:induction false} SignerAnswerIsCurrent(h: History, e: Errand, signedAt: int, now: int)
    requires Run(h).clock <= now && e in Run(h).errands && e.Sign? && Run(h).hub.session.Some?
    ensures e.job.IssueTicket?
    ensures var r := Run(h).hub.session.value;
            TicketReady(r, e.job.roundId, now) ==>
              match BuildStatement(e.snapshot, signedAt)
              case Ok(s) => Certifies(Signed(s), r)
              case Err(_) => signedAt >= r.card.expiresAt
  {
    RunKeeps(h);
    var w := Run(h);
    assert ErrandOk(e, w.hub.session.value, w.clock, w.roundIds);
    if TicketReady(w.hub.session.value, e.job.roundId, now) {
      SignErrandCurrent(w, e, now);
      ReadyIsComplete(e.snapshot, e.job.roundId, e.takenAt, signedAt);
      if BuildStatement(e.snapshot, signedAt).Ok? {
        SnapshotStaysTrue(e.snapshot, w.hub.session.value, signedAt);
      }
    }
  }

  /** While a ticket is wanted its job is queued; the outbox is bounded; so is each mailbox. */
  lemma QueuesAccounted(h: History)
    ensures var w := Run(h);
            && |w.hub.mail.source| <= MAILBOX_MAX && |w.hub.mail.target| <= MAILBOX_MAX
            && (w.hub.session.Some? ==>
                  var r := w.hub.session.value;
                  && |w.hub.outbox| <= OUTBOX_MAX + (if r.ticket.Some? then 1 else 0)
                  && (r.phase.Connecting? && r.ticket.None? && r.card.expiresAt > w.clock ==>
                        exists e :: e in w.hub.outbox && IsJob(e, r.round.no, r.round.id)))
  {
    RunKeeps(h);
    var w := Run(h);
    if w.hub.session.Some? {
      var r := w.hub.session.value;
      if r.phase.Connecting? && r.ticket.None? && r.card.expiresAt > w.clock {
        var i :| 0 <= i < |w.hub.outbox| && w.hub.outbox[i].id == DeliveryId(r.round.no, IssueTicketJob);
        assert EntryOk(w.hub.outbox[i], r);
        assert w.hub.outbox[i] in w.hub.outbox;
      }
    }
  }

  lemma {:induction false} EarliestDueIsLeast(o: seq<Entry>)
    ensures EarliestDue(o).None? <==> |o| == 0
    ensures forall e :: e in o ==> EarliestDue(o).value <= e.nextAttemptAt
    ensures |o| != 0 ==> exists e :: e in o && e.nextAttemptAt == EarliestDue(o).value
  {
    if |o| != 0 {
      EarliestDueIsLeast(o[1..]);
      assert forall e :: e in o ==> e == o[0] || e in o[1..];
      if EarliestDue(o[1..]).None? || o[0].nextAttemptAt < EarliestDue(o[1..]).value {
        assert o[0] in o;
      } else {
        var e :| e in o[1..] && e.nextAttemptAt == EarliestDue(o[1..]).value;
        assert e in o;
      }
    }
  }

  /** The alarm is never later than any queued item or the expiry, and never earlier than the first of
      them, clamped to one tick after storage was last written. */
  ghost predicate AlarmCovers(w: World) {
    w.hub.session.Some? ==>
      var tick, expiry := w.armedAt + 1, Expiry(w.hub.session.value);
      && w.hub.alarm.Some?
      && (forall e :: e in w.hub.outbox ==> w.hub.alarm.value <= Max(tick, e.nextAttemptAt))
      && w.hub.alarm.value <= Max(tick, expiry)
      && (w.hub.alarm.value in {tick, expiry} || exists e :: e in w.hub.outbox && w.hub.alarm.value == e.nextAttemptAt)
  }

  lemma AlarmInvCovers(w: World)
    requires AlarmInv(w)
    ensures AlarmCovers(w)
  {
    EarliestDueIsLeast(w.hub.outbox);
  }

  lemma {:induction false} AlarmCoversEverything(h: History)
    ensures AlarmCovers(Run(h))
  {
    assert AlarmInv(Run(h)) by { RunKeeps(h); }
    AlarmInvCovers(Run(h));
  }

  /** A queued tool delivery is only ever moved into the mailbox of its side, or discarded with the whole
      outbox when its round or its session ends. */
  lemma ToolDeliveryConserved(w: World, a: Action, now: int, e: Entry)
    requires WorldInv(w) && w.clock <= now && w.hub.session.Some?
    requires e in w.hub.outbox && e.Deliver? && e.endpoint.kind.Tool?
    ensures var next := Perform(w, a, now);
            || HasId(next.hub.outbox, e.id)
            || HasMail(next.hub.mail.Of(e.side), e.id)
            || next.hub.session.None?
            || next.hub.session.value.round.no != w.hub.session.value.round.no
            || Terminal(next.hub.session.value.phase)
  {
    var r := w.hub.session.value;
    assert EntryOk(e, r);
    assert HasId(w.hub.outbox, e.id) by {
      var i :| 0 <= i < |w.hub.outbox| && w.hub.outbox[i] == e;
    }
    match a
    case DoMutate(caller, req) => MutateConserves(w, caller, req, now, e);
    case DoDeviceAck(caller, id) => DropDistinct(w.hub.outbox, id); DeviceAckSparesTools(w, caller, id, now, e);
    case DoSign(errand, signedAt) => SignConserves(w, errand, signedAt, now, e);
    case DoFinish(errand) => FinishConserves(w, errand, now, e);
    case DoRetry(id, spread) => PostponeKeeps(w.hub.outbox, id, now, spread);
    case _ =>
  }

  lemma MutateConserves(w: World, caller: Caller, req: Request, now: int, e: Entry)
    requires WorldInv(w) && w.clock <= now && w.hub.session.Some? && HasId(w.hub.outbox, e.id)
    ensures var next := Mutated(w, caller, req, now);
            next.hub.session.Some? &&
            (HasId(next.hub.outbox, e.id) || next.hub.session.value.round.no != w.hub.session.value.round.no
             || Terminal(next.hub.session.value.phase))
  {
    var next := Mutated(w, caller, req, now);
    if next != w {
      var r := w.hub.session.value;
      var c := Apply(r, caller, req, now).value;
      AddAllDistinct(if c.cleared then [] else w.hub.outbox, c.posted);
      ClearedOnlyAtAnEnd(r, caller, req, now);
    }
  }

  lemma ClearedOnlyAtAnEnd(r: Record, caller: Caller, req: Request, now: int)
    requires Apply(r, caller, req, now).Ok?
    ensures var c := Apply(r, caller, req, now).value;
            c.cleared ==> c.record.round.no != r.round.no || Terminal(c.record.phase)
  {
    if req.Report? && req.event.Some? && req.event != Some(CancelEvent) {
      match req.event.value
      case InterruptEvent =>
      case _ =>
    }
  }

  lemma SameIdSameEntry(o: seq<Entry>, a: Entry, b: Entry)
    requires DistinctIds(o) && a in o && b in o
    ensures a.id == b.id ==> a == b
  {
    var i :| 0 <= i < |o| && o[i] == a;
    var j :| 0 <= j < |o| && o[j] == b;
    assert i != j ==> a.id != b.id;
  }

  lemma DeviceAckSparesTools(w: World, caller: Caller, id: DeliveryId, now: int, e: Entry)
    requires WorldInv(w) && w.hub.session.Some? && e in w.hub.outbox && e.Deliver? && e.endpoint.kind.Tool?
    ensures DeviceAck(w.hub, caller, id, now).Ok? && DeviceAck(w.hub, caller, id, now).value != w.hub ==> id != e.id
  {
    var item := FindEntry(w.hub.outbox, id);
    if item.Some? {
      SameIdSameEntry(w.hub.outbox, item.value, e);
    }
  }

  lemma SignConserves(w: World, errand: Errand, signedAt: int, now: int, e: Entry)
    requires WorldInv(w) && w.clock <= now && w.hub.session.Some? && e in w.hub.outbox && e.Deliver? && HasId(w.hub.outbox, e.id)
    ensures HasId(SignedBack(w, errand, signedAt, now).hub.outbox, e.id)
  {
    if SignedBack(w, errand, signedAt, now) != w {
      var r := w.hub.session.value;
      assert EntryOk(e, r);
      assert ErrandOk(errand, r, w.clock, w.roundIds);
      DropDistinct(w.hub.outbox, errand.job.id);
      var ticket := Signed(BuildStatement(errand.snapshot, signedAt).value);
      var next := Ticketed(r, ticket, now);
      AddAllDistinct(Drop(w.hub.outbox, errand.job.id), [TicketDelivery(next, Source, ticket, now), TicketDelivery(next, Target, ticket, now)]);
    }
  }

  lemma FinishConserves(w: World, errand: Errand, now: int, e: Entry)
    requires WorldInv(w) && w.clock <= now && w.hub.session.Some? && e in w.hub.outbox && e.Deliver? && HasId(w.hub.outbox, e.id)
    ensures var next := Finished(w, errand, now);
            HasId(next.hub.outbox, e.id) || HasMail(next.hub.mail.Of(e.side), e.id)
  {
    if Finished(w, errand, now) != w {
      var r := w.hub.session.value;
      assert EntryOk(e, r);
      assert ErrandOk(errand, r, w.clock, w.roundIds);
      match errand
      case DropJob(job) => DropDistinct(w.hub.outbox, job.id);
      case MailOut(item) =>
        DropDistinct(w.hub.outbox, item.id);
        if item.id == e.id {
          assert item.side == e.side;
          var box := w.hub.mail.Of(item.side);
          if !HasMail(box, item.id) {
            assert (box + [MailItem(item.id, item.envelope)])[|box|].id == item.id;
          }
        }
      case PushOut(item) => DropDistinct(w.hub.outbox, item.id);
    }
  }

  lemma FinishKeepsMail(w: World, errand: Errand, now: int, side: Side, m: MailItem)
    requires WorldInv(w) && w.hub.session.Some? && m in w.hub.mail.Of(side)
    ensures var next := Perform(w, DoFinish(errand), now); m in next.hub.mail.Of(side) || next.deleted
  {
    if Finished(w, errand, now) != w {
      assert ErrandOk(errand, w.hub.session.value, w.clock, w.roundIds);
    }
  }

  /** What is in a mailbox stays there until its own endpoint acknowledges it. */
  lemma MailLeavesByAckOnly(w: World, a: Action, now: int, side: Side, m: MailItem)
    requires WorldInv(w) && w.clock <= now && w.hub.session.Some? && m in w.hub.mail.Of(side)
    ensures var next := Perform(w, a, now);
            || m in next.hub.mail.Of(side)
            || next.deleted
            || (a.DoPoll? && m.id in a.acked && Participant(w.hub.session.value.card, a.caller) == Some(side))
  {
    match a
    case DoFinish(errand) => FinishKeepsMail(w, errand, now, side, m);
    case _ =>
  }
}
