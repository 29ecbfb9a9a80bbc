/** The durable index of invocations: which correlation ids were claimed, for what input, and how they ended. */
module InvocationStore {
  import opened Prelude

  type Corr = string
  type Hash = string
  type Envelope = string

  const HOUR: nat := 3_600_000
  const CAPACITY: nat := 512

  datatype Entry = Entry(digest: Hash, expires: int, complete: bool, retryable: bool)

  /** What survives a restart. */
  datatype Ledger = Ledger(index: map<Corr, Entry>, replies: map<Corr, Envelope>)

  datatype Refusal = Reused | Full | StoreFailed

  datatype Claim = Leads | Replays(reply: Option<Envelope>) | Refused(why: Refusal)

  predicate Blocks(e: Entry, now: int) {
    !e.complete || e.expires >= now
  }

  function Kept(index: map<Corr, Entry>, now: int): map<Corr, Entry> {
    map c | c in index && Blocks(index[c], now) :: index[c]
  }

  /** Store.Claim; `saved` and `readable` say how the disk behaves. */
  function ClaimStep(l: Ledger, corr: Corr, digest: Hash, now: int, saved: bool, readable: bool): (Claim, Ledger) {
    if corr in l.index && Blocks(l.index[corr], now) then
      var e := l.index[corr];
      if e.digest != digest then (Refused(Reused), l)
      else if e.retryable then
        if !saved then (Refused(StoreFailed), l)
        else (Leads, l.(index := l.index[corr := e.(complete := false, retryable := false)]))
      else if !e.complete then (Replays(None), l)
      else if !readable || corr !in l.replies then (Refused(StoreFailed), l)
      else (Replays(Some(l.replies[corr])), l)
    else
      var kept := Kept(l.index, now);
      if |kept| >= CAPACITY then (Refused(Full), l)
      else if !saved then (Refused(StoreFailed), l)
      else (Leads, Ledger(kept[corr := Entry(digest, now + HOUR, false, false)], l.replies - (l.index.Keys - kept.Keys - {corr})))
  }

  /** Store.finish: the reply is written before the index; a failure of the index leaves the intent open. */
  function FinishStep(l: Ledger, corr: Corr, reply: Envelope, retryable: bool, replied: bool, saved: bool): Ledger
    requires corr in l.index
  {
    if l.index[corr].complete || !replied then l
    else
      var m := l.(replies := l.replies[corr := reply]);
      if saved then m.(index := m.index[corr := m.index[corr].(complete := true, retryable := retryable)]) else m
  }

  // ----- what the index promises across restarts -----

  /** The last election of an id: for which input, whether it has ended, whether its end could be stored, and whether
      it then invited a repeat. */
  datatype Election = Election(digest: Hash, over: bool, stored: bool, retryable: bool, expires: int, reply: Envelope)

  /** A new election is right only after the last one ended, with its end stored, and that an hour ago or inviting this
      very input. An execution whose end could not be stored is never repeated. */
  predicate MayElect(last: Election, digest: Hash, now: int) {
    last.over && last.stored && (last.expires < now || (last.retryable && last.digest == digest))
  }

  predicate Agrees(e: Entry, last: Election) {
    && e.digest == last.digest && e.expires == last.expires
    && (e.complete <==> last.over && last.stored) && (e.retryable ==> e.complete && last.retryable)
  }

  /** An election is in the index, with its reply if it has ended, or has expired out of it. */
  predicate Recorded(l: Ledger, elections: map<Corr, Election>, clock: int, c: Corr) {
    if c in l.index then
      && c in elections && Agrees(l.index[c], elections[c])
      && (l.index[c].complete ==> c in l.replies && l.replies[c] == elections[c].reply)
    else c in elections ==> elections[c].over && elections[c].stored && elections[c].expires < clock
  }

  ghost predicate LedgerOk(l: Ledger, elections: map<Corr, Election>, clock: int) {
    |l.index| <= CAPACITY && forall c :: Recorded(l, elections, clock, c)
  }

  /** The last election of an id is running, for this input, and its intent is durable. */
  predicate Backed(l: Ledger, elections: map<Corr, Election>, c: Corr, digest: Hash) {
    c in elections && !elections[c].over && elections[c].digest == digest && c in l.index && !l.index[c].complete
  }

  function Elected(elections: map<Corr, Election>, corr: Corr, digest: Hash, l: Ledger): map<Corr, Election>
    requires corr in l.index
  {
    elections[corr := Election(digest, false, false, false, l.index[corr].expires, "")]
  }

  /** The books after an election: the hour of an id that is invited to repeat runs on. */
  predicate Elects(before: map<Corr, Election>, after: map<Corr, Election>, corr: Corr, digest: Hash, now: int) {
    && corr in after && after == before[corr := after[corr]] && after[corr].digest == digest && !after[corr].over
    && (after[corr].expires == now + HOUR
        || (corr in before && before[corr].digest == digest && before[corr].retryable && now <= before[corr].expires == after[corr].expires))
  }

  lemma GrowsByOne<V>(m: map<Corr, V>, id: Corr, v: V)
    ensures |m[id := v]| == |m| + (if id in m then 0 else 1)
  {
    assert m[id := v].Keys == m.Keys + {id};
  }

  lemma KeptSmaller(index: map<Corr, Entry>, now: int)
    ensures |Kept(index, now)| <= |index|
  {
    assert index.Keys == Kept(index, now).Keys + (index.Keys - Kept(index, now).Keys);
  }

  lemma ClaimSmall(l: Ledger, corr: Corr, digest: Hash, now: int, saved: bool, readable: bool)
    requires |l.index| <= CAPACITY
    ensures |ClaimStep(l, corr, digest, now, saved, readable).1.index| <= CAPACITY
  {
    if corr in l.index && Blocks(l.index[corr], now) {
      GrowsByOne(l.index, corr, l.index[corr].(complete := false, retryable := false));
    } else {
      KeptSmaller(l.index, now);
      GrowsByOne(Kept(l.index, now), corr, Entry(digest, now + HOUR, false, false));
    }
  }

  /** A claim leads only where the last election allows it. */
  lemma ClaimAllowed(l: Ledger, elections: map<Corr, Election>, clock: int, corr: Corr, digest: Hash, now: int, saved: bool, readable: bool)
    requires Recorded(l, elections, clock, corr) && clock <= now
    ensures var o := ClaimStep(l, corr, digest, now, saved, readable);
            if o.0.Leads? then
              && (corr !in elections || MayElect(elections[corr], digest, now)) && corr in o.1.index
              && Backed(o.1, Elected(elections, corr, digest, o.1), corr, digest)
              && Recorded(o.1, Elected(elections, corr, digest, o.1), now, corr)
              && Elects(elections, Elected(elections, corr, digest, o.1), corr, digest, now)
            else o.1 == l
  {
  }

  /** Whatever is claimed, a running intent is never dropped, and the books of the other ids stay in order. */
  lemma ClaimSpares(l: Ledger, elections: map<Corr, Election>, clock: int, corr: Corr, digest: Hash, now: int, saved: bool, readable: bool, c: Corr)
    requires Recorded(l, elections, clock, c) && clock <= now && c != corr
    ensures var o := ClaimStep(l, corr, digest, now, saved, readable);
            var after := if o.0.Leads? && corr in o.1.index then Elected(elections, corr, digest, o.1) else elections;
            && Recorded(o.1, after, now, c)
            && (forall d :: Backed(l, elections, c, d) ==> Backed(o.1, after, c, d))
  {
  }

  /** What is answered without executing: the stored reply of a finished election for the same input, or nothing
      but the news that it was interrupted. */
  lemma ReplayIsStored(l: Ledger, elections: map<Corr, Election>, clock: int, corr: Corr, digest: Hash, now: int, saved: bool, readable: bool)
    requires Recorded(l, elections, clock, corr)
    ensures var o := ClaimStep(l, corr, digest, now, saved, readable);
            o.0.Replays? ==> corr in elections && elections[corr].digest == digest && corr in l.index
                             && (o.0.reply.Some? ==> elections[corr].over && o.0.reply.value == elections[corr].reply)
                             && (o.0.reply.Some? <==> l.index[corr].complete)
  {
  }

  /** The books after an ending; one that could not be stored invites nobody. */
  function Ended(elections: map<Corr, Election>, corr: Corr, reply: Envelope, retryable: bool, stored: bool): map<Corr, Election>
    requires corr in elections
  {
    elections[corr := elections[corr].(over := true, stored := stored, retryable := retryable && stored, reply := reply)]
  }

  lemma FinishKeeps(l: Ledger, elections: map<Corr, Election>, clock: int, corr: Corr, reply: Envelope, retryable: bool, replied: bool, saved: bool)
    requires LedgerOk(l, elections, clock) && corr in elections && Backed(l, elections, corr, elections[corr].digest)
    ensures var m := FinishStep(l, corr, reply, retryable, replied, saved);
            && LedgerOk(m, Ended(elections, corr, reply, retryable, replied && saved), clock)
            && (m.index[corr].complete <==> replied && saved)
  {
    GrowsByOne(l.index, corr, l.index[corr].(complete := true, retryable := retryable));
    var m := FinishStep(l, corr, reply, retryable, replied, saved);
    var after := Ended(elections, corr, reply, retryable, replied && saved);
    forall c ensures Recorded(m, after, clock, c) {
      assert Recorded(l, elections, clock, c);
    }
  }

  lemma FinishSpares(l: Ledger, elections: map<Corr, Election>, corr: Corr, reply: Envelope, retryable: bool, replied: bool, saved: bool, c: Corr, digest: Hash)
    requires Backed(l, elections, c, digest) && c != corr && corr in l.index && corr in elections
    ensures Backed(FinishStep(l, corr, reply, retryable, replied, saved), Ended(elections, corr, reply, retryable, replied && saved), c, digest)
  {
  }
}

/** One leader per correlation id: the table of invocation receipts in front of the durable index. Methods are
    sections under the task mutex. */
module Invocations {
  import opened InvocationStore

  class Receipt {
    const digest: Hash
    const expires: int
    var completed: bool
    var retryable: bool
    var envelope: Envelope
    /** how often Done was closed */
    ghost var closes: nat

    ghost predicate Sound()
      reads this
    {
      (closes == if completed then 1 else 0) && (retryable ==> completed)
    }

    constructor (digest: Hash, expires: int)
      ensures this.digest == digest && this.expires == expires && !completed && Sound()
    {
      this.digest, this.expires := digest, expires;
      completed, retryable, envelope, closes := false, false, "", 0;
    }

    method Close(reply: Envelope, again: bool)
      requires Sound() && !completed
      modifies this
      ensures Sound() && completed && envelope == reply && retryable == again
    {
      envelope, completed, retryable := reply, true, again;
      closes := closes + 1;
    }

    /** The reply of an earlier life, closed from the start. */
    constructor Stored(digest: Hash, expires: int, envelope: Envelope)
      ensures this.digest == digest && this.expires == expires && completed && !retryable && Sound() && this.envelope == envelope
    {
      this.digest, this.expires, this.envelope := digest, expires, envelope;
      completed, retryable, closes := true, false, 1;
    }
  }

  /** How a caller takes part in an invocation. */
  datatype Part = Leader | Follower | Rejected(why: Refusal)

  datatype Kind = Result | Typed | Desktop | Progress

  datatype Reply = Reply(kind: Kind, consent: bool, envelope: Envelope)

  predicate Ends(r: Reply) {
    !r.kind.Progress?
  }

  lemma WithoutOne(m: map<Corr, Receipt>, id: Corr)
    requires id in m
    ensures |m - {id}| == |m| - 1
  {
    assert (m - {id}).Keys == m.Keys - {id};
  }

  class Table {
    var receipts: map<Corr, Receipt>
    var ledger: Ledger
    ghost var elections: map<Corr, Election>
    ghost var clock: int

    /** A running receipt is the last election of its id, and its intent is durable. */
    ghost predicate Running(c: Corr)
      requires c in receipts
      reads this, receipts[c]
    {
      receipts[c].Sound() && (!receipts[c].completed ==> Backed(ledger, elections, c, receipts[c].digest))
    }

    ghost predicate Sound()
      reads this, receipts.Values
    {
      && |receipts| <= CAPACITY
      && (forall c, d :: c in receipts && d in receipts && c != d ==> receipts[c] != receipts[d])
      && (forall c :: c in receipts ==> Running(c))
    }

    ghost predicate Valid()
      reads this, receipts.Values
    {
      Sound() && LedgerOk(ledger, elections, clock)
    }

    constructor ()
      ensures Valid() && receipts == map[] && elections == map[] && clock == 0
    {
      receipts, ledger, elections, clock := map[], Ledger(map[], map[]), map[], 0;
    }

    /** The loop over the table that forgets finished receipts an hour later. */
    method Evict(now: int)
      modifies `receipts
      ensures |receipts| <= old(|receipts|)
      ensures forall c :: c in receipts ==> c in old(receipts) && receipts[c] == old(receipts)[c]
      ensures forall c :: c in old(receipts) ==> (c in receipts <==> !(old(receipts)[c].completed && now > old(receipts)[c].expires))
    {
      var keys := receipts.Keys;
      ghost var all := receipts;
      while keys != {}
        invariant keys <= receipts.Keys
        invariant |receipts| <= |all|
        invariant forall c :: c in receipts ==> c in all && receipts[c] == all[c]
        invariant forall c :: c in all && c !in keys ==> (c in receipts <==> !(all[c].completed && now > all[c].expires))
        decreases |keys|
      {
        var id :| id in keys;
        keys := keys - {id};
        if receipts[id].completed && now > receipts[id].expires {
          WithoutOne(receipts, id);
          receipts := receipts - {id};
        }
      }
    }

    /** Time passes. */
    ghost method Advance(now: int)
      requires Valid() && clock <= now
      modifies `clock
      ensures Valid() && clock == now
    {
      forall c ensures Recorded(ledger, elections, now, c) {
        assert Recorded(ledger, elections, clock, c);
      }
      clock := now;
    }

    /** What makes room for a claim: a finished receipt of the id goes, and so does whatever has expired. */
    method Clear(corr: Corr, now: int)
      requires Sound() && (Fresh(corr, now) ==> receipts[corr].completed)
      modifies `receipts
      ensures Sound() && corr !in receipts
      ensures forall c :: c in receipts ==> c in old(receipts) && receipts[c] == old(receipts)[c]
      ensures forall c :: c in old(receipts) && !old(receipts)[c].completed ==> c in receipts
    {
      if Fresh(corr, now) {
        WithoutOne(receipts, corr);
        receipts := receipts - {corr};
      }
      Evict(now);
      forall c | c in receipts ensures Running(c) {
        assert old(Running(c));
      }
    }

    /** The receipt of an id that need not wait for the store: still running, or finished within the hour. */
    predicate Fresh(corr: Corr, now: int)
      reads this, receipts.Values
    {
      corr in receipts && (!receipts[corr].completed || now <= receipts[corr].expires)
    }

    /** Store.Claim: the durable index elects a leader, replays, or refuses. */
    method Elect(corr: Corr, digest: Hash, now: int, saved: bool, readable: bool) returns (claim: Claim)
      requires LedgerOk(ledger, elections, clock) && clock <= now
      modifies `ledger, `elections, `clock
      ensures LedgerOk(ledger, elections, clock) && clock == now
      ensures claim.Leads? ==> (corr !in old(elections) || MayElect(old(elections)[corr], digest, now))
                               && Backed(ledger, elections, corr, digest) && Elects(old(elections), elections, corr, digest, now)
      ensures !claim.Leads? ==> ledger == old(ledger) && elections == old(elections)
      ensures claim.Replays? ==> corr in elections && elections[corr].digest == digest && corr in ledger.index
                                 && (claim.reply.Some? <==> ledger.index[corr].complete)
                                 && (claim.reply.Some? ==> elections[corr].over && claim.reply.value == elections[corr].reply)
      ensures forall c, d :: c != corr && Backed(old(ledger), old(elections), c, d) ==> Backed(ledger, elections, c, d)
    {
      ghost var l, e, t := ledger, elections, clock;
      assert Recorded(l, e, t, corr);
      ClaimSmall(l, corr, digest, now, saved, readable);
      ClaimAllowed(l, e, t, corr, digest, now, saved, readable);
      ReplayIsStored(l, e, t, corr, digest, now, saved, readable);
      var o := ClaimStep(ledger, corr, digest, now, saved, readable);
      claim, ledger, clock := o.0, o.1, now;
      if claim.Leads? { elections := Elected(elections, corr, digest, o.1); }
      forall c ensures Recorded(ledger, elections, clock, c) {
        assert Recorded(l, e, t, c);
        if c != corr { ClaimSpares(l, e, t, corr, digest, now, saved, readable, c); }
      }
      forall c, d | c != corr && Backed(l, e, c, d) ensures Backed(ledger, elections, c, d) {
        assert Recorded(l, e, t, c);
        ClaimSpares(l, e, t, corr, digest, now, saved, readable, c);
      }
    }

    /** A new receipt enters the table. */
    method Insert(corr: Corr, receipt: Receipt)
      requires Sound() && corr !in receipts && |receipts| < CAPACITY && receipt.Sound()
      requires !receipt.completed ==> Backed(ledger, elections, corr, receipt.digest)
      requires receipt !in receipts.Values
      modifies `receipts
      ensures Sound() && receipts == old(receipts)[corr := receipt]
    {
      GrowsByOne(receipts, corr, receipt);
      receipts := receipts[corr := receipt];
      forall c | c in receipts ensures Running(c) {
        if c != corr { assert old(Running(c)); }
      }
    }

    /** The part of claimInvocation that asks the store. */
    method Admit(corr: Corr, digest: Hash, interrupted: Envelope, now: int, saved: bool, readable: bool)
      returns (part: Part, receipt: Receipt?)
      requires Valid() && clock <= now && corr !in receipts && |receipts| < CAPACITY
      modifies this
      ensures Valid() && clock == now
      ensures part.Leader? ==> (corr !in old(elections) || MayElect(old(elections)[corr], digest, now))
                               && Elects(old(elections), elections, corr, digest, now)
      ensures !part.Leader? ==> elections == old(elections)
      ensures if part.Rejected? then receipts == old(receipts)
              else receipt != null && fresh(receipt) && receipts == old(receipts)[corr := receipt]
                   && receipt.digest == digest && receipt.completed == part.Follower?
      ensures part.Follower? ==>
        corr in elections && elections[corr].digest == digest && corr in ledger.index
        && (if ledger.index[corr].complete then elections[corr].over && receipt.envelope == elections[corr].reply
            else receipt.envelope == interrupted)
    {
      receipt := null;
      var claim := Elect(corr, digest, now, saved, readable);
      if claim.Refused? { return Rejected(claim.why), null; }
      if claim.Replays? {
        receipt := new Receipt.Stored(digest, now + HOUR, if claim.reply.Some? then claim.reply.value else interrupted);
        part := Follower;
      } else {
        receipt := new Receipt(digest, now + HOUR);
        part := Leader;
      }
      Insert(corr, receipt);
    }

    /** claimInvocation: the caller leads a new execution, follows a receipt, or is rejected. */
    method ClaimInvocation(corr: Corr, digest: Hash, interrupted: Envelope, now: int, saved: bool, readable: bool)
      returns (part: Part, receipt: Receipt?)
      requires Valid() && clock <= now
      modifies this
      ensures Valid() && clock == now
      // a leader is elected only after the last election of the id ended, and never beside a running one
      ensures part.Leader? ==> (corr !in old(elections) || MayElect(old(elections)[corr], digest, now))
                               && Elects(old(elections), elections, corr, digest, now)
      ensures part.Leader? ==> corr in receipts && receipts[corr] == receipt && fresh(receipt) && !receipt.completed && receipt.digest == digest
      ensures !part.Leader? ==> elections == old(elections)
      // a follower gets the receipt of the same input: the leader's own, or what the store kept of it
      ensures part.Follower? ==> corr in receipts && receipts[corr] == receipt && receipt.digest == digest
      ensures part.Follower? && !fresh(receipt) ==> corr in old(receipts) && receipt == old(receipts)[corr]
      ensures part.Follower? && fresh(receipt) ==>
        receipt.completed && corr in elections && elections[corr].digest == digest && corr in ledger.index
        && (if ledger.index[corr].complete then elections[corr].over && receipt.envelope == elections[corr].reply
            else receipt.envelope == interrupted)
      ensures forall c :: c in receipts ==> (c in old(receipts) && receipts[c] == old(receipts)[c]) || fresh(receipts[c])
      // a running receipt is never evicted
      ensures forall c :: c in old(receipts) && !old(receipts)[c].completed ==> c in receipts && receipts[c] == old(receipts)[c]
    {
      receipt := null;
      if Fresh(corr, now) {
        var found := receipts[corr];
        if found.digest != digest || !found.retryable {
          Advance(now);
          if found.digest != digest { return Rejected(Reused), null; }
          return Follower, found;
        }
        assert Running(corr);
      }
      Clear(corr, now);
      if |receipts| >= CAPACITY { Advance(now); return Rejected(Full), null; }
      part, receipt := Admit(corr, digest, interrupted, now, saved, readable);
    }

    /** finishInvocation: the first completion of a running receipt is stored and wakes the followers. */
    method FinishInvocation(corr: Corr, envelope: Envelope, failure: Envelope, retryable: bool, replied: bool, saved: bool)
      returns (sent: Envelope)
      requires Valid()
      modifies `ledger, `elections, receipts.Values
      ensures Valid() && receipts == old(receipts) && clock == old(clock)
      ensures old(corr !in receipts || receipts[corr].completed) ==> sent == envelope && elections == old(elections) && ledger == old(ledger)
      ensures old(corr in receipts && receipts[corr].completed) ==> unchanged(receipts[corr])
      ensures old(corr in receipts && !receipts[corr].completed) ==>
        && receipts[corr].completed && receipts[corr].closes == 1
        && receipts[corr].envelope == sent == (if replied && saved then envelope else failure)
        && receipts[corr].retryable == (retryable && replied && saved)
        && corr in old(elections) && elections == Ended(old(elections), corr, envelope, retryable, replied && saved)
        && corr in ledger.index && (ledger.index[corr].complete <==> replied && saved)
      ensures forall c :: c in receipts && c != corr ==> unchanged(receipts[c])
    {
      sent := envelope;
      if corr !in receipts || receipts[corr].completed { return; }
      assert Running(corr);
      StoreEnd(corr, envelope, retryable, replied, saved);
      var again := retryable && replied && saved;
      if !(replied && saved) { sent := failure; }
      receipts[corr].Close(sent, again);
      forall c | c in receipts ensures Running(c) {
        if c != corr { assert old(Running(c)); }
      }
    }

    /** The sink dispatchInput hands its leader: the first reply that ends the request is stored before it is sent;
        only a desktop request that still waits for consent invites a repeat. */
    method Sink(corr: Corr, reply: Reply, failure: Envelope, replied: bool, saved: bool) returns (sent: Envelope)
      requires Valid()
      modifies `ledger, `elections, receipts.Values
      ensures Valid() && receipts == old(receipts) && clock == old(clock)
      ensures !Ends(reply) || old(corr !in receipts || receipts[corr].completed) ==>
        sent == reply.envelope && ledger == old(ledger) && elections == old(elections)
      ensures !Ends(reply) || old(corr in receipts && receipts[corr].completed) ==> forall c :: c in receipts ==> unchanged(receipts[c])
      ensures Ends(reply) && old(corr in receipts && !receipts[corr].completed) ==>
        && receipts[corr].completed && receipts[corr].envelope == sent
        && (sent == reply.envelope || (sent == failure && !receipts[corr].retryable))
        && (receipts[corr].retryable ==> reply.kind.Desktop? && reply.consent)
        && (replied && saved && reply.kind.Desktop? && reply.consent ==> receipts[corr].retryable)
    {
      sent := reply.envelope;
      if Ends(reply) {
        sent := FinishInvocation(corr, reply.envelope, failure, reply.kind.Desktop? && reply.consent, replied, saved);
      }
    }

    /** Store.Complete and Store.Defer for a running election. */
    method StoreEnd(corr: Corr, envelope: Envelope, retryable: bool, replied: bool, saved: bool)
      requires LedgerOk(ledger, elections, clock) && corr in elections && Backed(ledger, elections, corr, elections[corr].digest)
      modifies `ledger, `elections
      ensures LedgerOk(ledger, elections, clock)
      ensures corr in old(elections) && elections == Ended(old(elections), corr, envelope, retryable, replied && saved)
      ensures corr in ledger.index && (ledger.index[corr].complete <==> replied && saved)
      ensures forall c, d :: c != corr && Backed(old(ledger), old(elections), c, d) ==> Backed(ledger, elections, c, d)
    {
      FinishKeeps(ledger, elections, clock, corr, envelope, retryable, replied, saved);
      ledger := FinishStep(ledger, corr, envelope, retryable, replied, saved);
      elections := Ended(elections, corr, envelope, retryable, replied && saved);
      forall c, d | c != corr && Backed(old(ledger), old(elections), c, d) ensures Backed(ledger, elections, c, d) {
        FinishSpares(old(ledger), old(elections), corr, envelope, retryable, replied, saved, c, d);
      }
    }

    /** The process restarts: only the ledger survives. */
    method Restart()
      requires Valid()
      modifies `receipts
      ensures Valid() && receipts == map[] && elections == old(elections) && clock == old(clock)
    {
      receipts := map[];
    }
  }
}
