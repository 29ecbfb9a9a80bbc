/** The one delivery id that is used twice: a run in which it happens, and what becomes of the second
    notice when the first still lies in a tool's mailbox. */
module PeerHubLimit {
  import opened Prelude
  import opened PeerHubTypes
  import opened PeerHubSteps
  import opened PeerHubRun
  import opened PeerHubDeliveries

  const ALICE := Caller("user", "key", Party(Tool, "alice"))
  const BOB := Caller("user", "key", Party(Device, "bob"))
  const PLAN := Creation(
    "session", "user", "key", "operator", ALICE.party, "protocol", "capability",
    Sides(Endpoint(ALICE.party, "plugin", "1", "send", "sender"), Endpoint(BOB.party, "plugin", "1", "receive", "receiver")),
    Source)

  /** Round ids of growing length, hence all different. */
  function Name(no: nat): (s: string)
    ensures |s| == no
  {
    if no == 0 then "" else Name(no - 1) + "r"
  }

  /** The record in round `no` after `k` of the four steps that lead to a live connection. */
  function Stage(no: nat, k: nat): Record {
    var begun := NewRecord(PLAN, Name(no), 0);
    var session := if no > 1 then Some("session hash") else None;
    var mine, theirs := if k >= 1 then Some(Stamp(0, Name(no))) else None, if k >= 2 then Some(Stamp(0, Name(no))) else None;
    begun.(
      bindings := Sides(if k >= 1 then Binding(Some("session hash"), Some("round hash")) else Binding(session, None),
                        if k >= 2 then Binding(Some("session hash"), Some("round hash")) else Binding(session, None)),
      approvals := Sides(mine, theirs),
      phase := if k >= 4 then Connecting else if k >= 2 then Signaling else WaitingApproval,
      round := Round(no, Name(no),
                     if k >= 4 then Answered else if k == 3 then Offered else AwaitingOffer,
                     if k >= 3 then Some("offer print") else None,
                     if k >= 4 then Some("answer print") else None,
                     Roles(if k >= 3 then Some(0) else None, if k >= 4 then Some(0) else None),
                     (if k >= 3 then [SignalReceipt(DeliveryId(no, SignalFrom(Initiator, Offer, 0)), "offer")] else [])
                     + (if k >= 4 then [SignalReceipt(DeliveryId(no, SignalFrom(Responder, Answer, 0)), "answer")] else [])))
  }

  function Who(k: nat): Caller {
    if k == 1 || k == 3 then BOB else ALICE
  }

  /** The request that takes round `no` from step k to step k + 1; the last one interrupts it. */
  function Move(no: nat, k: nat): Request {
    if k == 0 then Authorize(Source, Name(no), "session hash", "round hash")
    else if k == 1 then Authorize(Target, Name(no), "session hash", "round hash")
    else if k == 2 then SendSignal(Initiator, Name(no), Signal(Offer, 0, "offer print", "offer"))
    else if k == 3 then SendSignal(Responder, Name(no), Signal(Answer, 0, "answer print", "answer"))
    else Report(Name(no), Some(InterruptEvent), None, Name(no + 1))
  }

  lemma MoveWorks(no: nat, k: nat)
    requires 1 <= no <= MAX_ROUNDS && k < 4
    ensures var o := Apply(Stage(no, k), Who(k), Move(no, k), 0);
            o.Ok? && o.value.record == Stage(no, k + 1) && !o.value.cleared && |o.value.posted| <= 2
  {
    var offered := SignalReceipt(DeliveryId(no, SignalFrom(Initiator, Offer, 0)), "offer");
    var answered := SignalReceipt(DeliveryId(no, SignalFrom(Responder, Answer, 0)), "answer");
    if k == 2 {
      assert KeepReceipt([], offered) == [offered] == [offered] + [];
    } else if k == 3 {
      assert Stage(no, 3).round.receipts == [offered];
      assert FindReceipt([offered], answered.id) == None;
      assert KeepReceipt([offered], answered) == [offered] + [answered];
    }
  }

  lemma InterruptWorks(no: nat)
    requires 1 <= no < MAX_ROUNDS
    ensures var o := Apply(Stage(no, 4), ALICE, Move(no, 4), 0);
            o.Ok? && o.value.record == Stage(no + 1, 0) && o.value.cleared && |o.value.posted| == 4
  {
  }

  ghost predicate Reached(w: World, no: nat, k: nat) {
    && w.hub.session == Some(Stage(no, k)) && w.clock == 0 && |w.hub.outbox| <= 4 + 2 * k
    && |w.openers| == no && (no > 1 ==> w.openers[no - 1] == Source)
    && (forall id :: id in w.roundIds ==> |id| <= no)
  }

  /** A request that the record accepts, that brings a fresh round id and fits the outbox, happens. */
  lemma Happens(w: World, caller: Caller, req: Request, r: Record, c: Change) returns (next: World)
    requires Reachable(w) && w.hub.session == Some(r) && w.clock == 0 && FreshId(w, req)
    requires Owns(r.card, caller) && r.card.expiresAt > 0 && Apply(r, caller, req, 0) == Ok(c)
    requires |w.hub.outbox| + |c.posted| <= OUTBOX_MAX
    ensures Reachable(next)
    ensures next.hub.session == Some(c.record) && next.clock == 0
    ensures |next.hub.outbox| == (if c.cleared then 0 else |w.hub.outbox|) + |c.posted|
    ensures next.issued == w.issued + Ids(c.posted)
    ensures next.roundIds == (if c.record.round.no != r.round.no then w.roundIds + [c.record.round.id] else w.roundIds)
    ensures next.openers == (if c.record.round.no != r.round.no then w.openers + [Opener(r.card, caller)] else w.openers)
  {
    var h: History :| Run(h) == w;
    PostedIsQueued(h, caller, req, 0);
    next := Run(Then(h, 0, DoMutate(caller, req)));
  }

  lemma NextStep(w: World, no: nat, k: nat, j: nat) returns (next: World)
    requires 1 <= no <= MAX_ROUNDS && k < 4 && Reachable(w) && Reached(w, no, k) && j == k + 1
    ensures Reachable(next) && Reached(next, no, j)
  {
    MoveWorks(no, k);
    next := Happens(w, Who(k), Move(no, k), Stage(no, k), Apply(Stage(no, k), Who(k), Move(no, k), 0).value);
  }

  lemma NameIsFresh(w: World, no: nat)
    requires 1 <= no < MAX_ROUNDS && Reached(w, no, 4)
    ensures FreshId(w, Move(no, 4)) && Stage(no + 1, 0).round.id == Name(no + 1) && Stage(no + 1, 0).round.no == no + 1
  {
    assert |Name(no + 1)| == no + 1;
  }

  lemma NextRound(w: World, no: nat, next: nat) returns (v: World)
    requires 1 <= no < MAX_ROUNDS && Reachable(w) && Reached(w, no, 4) && next == no + 1
    ensures Reachable(v) && Reached(v, next, 0)
  {
    InterruptWorks(no);
    NameIsFresh(w, no);
    v := Happens(w, ALICE, Move(no, 4), Stage(no, 4), Apply(Stage(no, 4), ALICE, Move(no, 4), 0).value);
  }

  lemma {:induction false} StepsTo(w: World, no: nat, k: nat, j: nat) returns (next: World)
    requires 1 <= no <= MAX_ROUNDS && k <= j <= 4 && Reachable(w) && Reached(w, no, k)
    ensures Reachable(next) && Reached(next, no, j)
    decreases j - k
  {
    if k == j {
      next := w;
    } else {
      next := NextStep(w, no, k, k + 1);
      next := StepsTo(next, no, k + 1, j);
    }
  }

  /** Round after round Alice and Bob connect and Alice interrupts. */
  lemma {:induction false} Play(no: nat, last: nat) returns (w: World)
    requires 1 <= no <= MAX_ROUNDS && last == 4
    ensures Reachable(w) && Reached(w, no, last)
    decreases no
  {
    var first := 0;
    if no > 1 {
      w := Play(no - 1, last);
      w := NextRound(w, no - 1, no);
    } else {
      w := FirstReached(no, first);
    }
    w := StepsTo(w, no, first, last);
  }

  lemma FirstReached(no: nat, k: nat) returns (w: World)
    requires no == 1 && k == 0
    ensures Reachable(w) && Reached(w, no, k)
  {
    assert Stage(1, 0) == NewRecord(PLAN, Name(1), 0);
    assert Run(Start) == START;
    w := Run(Then(Start, 0, DoCreate(ALICE, PLAN, Name(1))));
  }

  lemma LastMove(no: nat, openers: seq<Side>)
    requires |openers| == MAX_ROUNDS == no && openers[no - 1] == Source
    ensures var o := Apply(Stage(no, 4), ALICE, Move(no, 4), 0);
            o.Ok? && |o.value.posted| == 2 && Opening(Stage(no, 4), openers, o.value.posted[0].id)
  {
  }

  lemma Echo(w: World, no: nat) returns (last: World)
    requires Reachable(w) && Reached(w, no, 4) && no == MAX_ROUNDS
    ensures Reachable(last) && !Distinct(last.issued)
  {
    LastMove(no, w.openers);
    assert |Name(no + 1)| == no + 1;
    var r, req := Stage(no, 4), Move(no, 4);
    var c := Apply(r, ALICE, req, 0).value;
    assert c.posted[0].id in w.issued by {
      var h: History :| Run(h) == w;
      RunIssued(h);
    }
    last := Happens(w, ALICE, req, r, c);
    Repeats(w.issued, Ids(c.posted));
  }

  lemma Repeats(issued: seq<DeliveryId>, ids: seq<DeliveryId>)
    requires |ids| > 0 && ids[0] in issued
    ensures !Distinct(issued + ids)
  {
    var i :| 0 <= i < |issued| && issued[i] == ids[0];
    assert (issued + ids)[i] == (issued + ids)[|issued|];
  }

  /** There is a run in which a delivery id is offered twice. */
  lemma EchoHappens()
    ensures exists h: History :: !Distinct(Run(h).issued)
  {
    var no, last := MAX_ROUNDS, 4;
    var w := Play(no, last);
    var echo := Echo(w, no);
    var h: History :| Run(h) == echo;
    assert !Distinct(Run(h).issued);
  }

  /** If the notice that opened round four still waits in the mailbox of a tool, the notice that the
      session has failed is dropped on its way there; otherwise it is delivered. */
  lemma {:induction false} LimitNoticeReachesTool(h: History, caller: Caller, roundId: string, drawn: string, code: Option<string>, side: Side, at: int, later: int)
    requires Run(h).hub.session.Some?
    requires var r := Run(h).hub.session.value;
             r.round.no == MAX_ROUNDS && r.card.endpoints.Of(side).party.kind.Tool? &&
             Participant(r.card, caller).Some? && Mutate(Run(h).hub, caller, Report(roundId, Some(InterruptEvent), code, drawn), at).Ok?
    ensures var r := Run(h).hub.session.value;
            var next := Mutate(Run(h).hub, caller, Report(roundId, Some(InterruptEvent), code, drawn), at).value;
            var id := DeliveryId(MAX_ROUNDS, UpdateTo(ByEvent(InterruptEvent, Participant(r.card, caller), MAX_ROUNDS), side));
            exists e :: e in next.outbox && e.Deliver? && e.id == id && e.envelope == UpdateEnvelope(Failed, r.round.id, MAX_ROUNDS) &&
              match Mail(next, e, later)
              case Err(_) => |Run(h).hub.mail.Of(side)| >= MAILBOX_MAX
              case Ok(mailed) =>
                mailed.mail.Of(side) == Run(h).hub.mail.Of(side) +
                  (if HasMail(Run(h).hub.mail.Of(side), id) then [] else [MailItem(id, e.envelope)])
  {
    var req := Report(roundId, Some(InterruptEvent), code, drawn);
    var r := Run(h).hub.session.value;
    PostedIsQueued(h, caller, req, at);
    var c := Apply(r, caller, req, at).value;
    var next := Mutate(Run(h).hub, caller, req, at).value;
    var e := c.posted[if side.Source? then 0 else 1];
    assert next.outbox == [] + c.posted;
    assert next.outbox[if side.Source? then 0 else 1] == e;
    assert HasId(next.outbox, e.id);
  }
}
