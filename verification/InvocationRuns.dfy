/** One leader at a time, over any sequence of claims, completions and restarts. */
module InvocationRuns {
  import opened InvocationStore
  import opened Invocations

  /** Claims, completions and restarts, in any order; a claim comes with the time it is made. */
  datatype Event =
    | Claims(corr: Corr, digest: Hash, interrupted: Envelope, now: int, saved: bool, readable: bool)
    | Finishes(corr: Corr, envelope: Envelope, failure: Envelope, retryable: bool, replied: bool, saved: bool)
    | Restarts

  /** What became of an event: a new leader, the end of the one there was, or neither. */
  datatype Outcome = Led | Closed | Neither

  predicate LedAt(events: seq<Event>, log: seq<Outcome>, i: nat, corr: Corr)
    requires |log| <= |events|
  {
    i < |log| && log[i].Led? && events[i].Claims? && events[i].corr == corr
  }

  /** The execution ended, and its end was stored. */
  predicate StoredAt(events: seq<Event>, log: seq<Outcome>, i: nat, corr: Corr)
    requires |log| <= |events|
  {
    i < |log| && log[i].Closed? && events[i].Finishes? && events[i].corr == corr && events[i].replied && events[i].saved
  }

  ghost predicate StoredBetween(events: seq<Event>, log: seq<Outcome>, i: nat, j: nat, corr: Corr)
    requires |log| <= |events|
  {
    exists k :: i < k < j && StoredAt(events, log, k, corr)
  }

  /** The execution ended inviting a repeat. */
  ghost predicate InvitedBetween(events: seq<Event>, log: seq<Outcome>, i: nat, j: nat, corr: Corr)
    requires |log| <= |events|
  {
    exists k :: i < k < j && StoredAt(events, log, k, corr) && events[k].retryable
  }

  /** The hour in which `i` leads began with `h`: the leaders since then were repeats of the same input within it. */
  ghost predicate HourOf(events: seq<Event>, log: seq<Outcome>, h: nat, i: nat, corr: Corr)
    requires |log| <= |events|
  {
    && h <= i && LedAt(events, log, h, corr) && LedAt(events, log, i, corr)
    && forall g :: h < g <= i && LedAt(events, log, g, corr) ==>
         events[g].now <= events[h].now + HOUR && events[g].digest == events[h].digest
  }

  ghost predicate HourOver(events: seq<Event>, log: seq<Outcome>, i: nat, now: int, corr: Corr)
    requires |log| <= |events|
  {
    exists h :: 0 <= h <= i && HourOf(events, log, h, i, corr) && now > events[h].now + HOUR
  }

  ghost predicate LedBetween(events: seq<Event>, log: seq<Outcome>, i: nat, j: nat, corr: Corr)
    requires |log| <= |events|
  {
    exists h :: i < h < j && LedAt(events, log, h, corr)
  }

  /** Two leaders of one id. The first ended, and its end was stored, before the second was elected. If they follow
      each other, either the end invited a repeat and the second has the same input, or the hour is over. */
  ghost predicate InTurn(events: seq<Event>, log: seq<Outcome>, i: nat, j: nat, corr: Corr)
    requires |log| <= |events|
  {
    LedAt(events, log, i, corr) && LedAt(events, log, j, corr) && i < j ==>
      && StoredBetween(events, log, i, j, corr)
      && (LedBetween(events, log, i, j, corr)
          || (events[i].digest == events[j].digest && InvitedBetween(events, log, i, j, corr))
          || HourOver(events, log, i, events[j].now, corr))
  }

  // ----- the elections against the log -----

  type Last = map<Corr, nat>

  /** The last leader of each id. */
  ghost predicate Heads(events: seq<Event>, log: seq<Outcome>, elections: map<Corr, Election>, last: Last)
    requires |log| <= |events|
  {
    && last.Keys == elections.Keys
    && (forall c :: c in last ==> LedAt(events, log, last[c], c) && events[last[c]].digest == elections[c].digest)
    && (forall i, c :: 0 <= i < |log| && LedAt(events, log, i, c) ==> c in last && i <= last[c])
  }

  /** Whether it has ended, and how. */
  ghost predicate EndsWell(events: seq<Event>, log: seq<Outcome>, e: Election, i: nat, c: Corr)
    requires |log| <= |events|
  {
    && (e.over && e.stored ==> StoredBetween(events, log, i, |log|, c))
    && (e.over && e.stored && e.retryable ==> InvitedBetween(events, log, i, |log|, c))
  }

  /** The hour in which it leads. */
  ghost predicate Expires(events: seq<Event>, log: seq<Outcome>, expires: int, i: nat, c: Corr)
    requires |log| <= |events|
  {
    exists h :: 0 <= h <= i && HourOf(events, log, h, i, c) && expires == events[h].now + HOUR
  }

  ghost predicate Logged(events: seq<Event>, log: seq<Outcome>, elections: map<Corr, Election>, last: Last) {
    && |log| <= |events| && Heads(events, log, elections, last)
    && (forall c :: c in last ==> EndsWell(events, log, elections[c], last[c], c))
    && (forall c :: c in last ==> Expires(events, log, elections[c].expires, last[c], c))
    && (forall i, j, c :: 0 <= i < j < |log| ==> InTurn(events, log, i, j, c))
  }

  // ----- what the log says does not change when it grows -----

  lemma StillLed(events: seq<Event>, log: seq<Outcome>, o: Outcome)
    requires |log| < |events|
    ensures var more := log + [o];
      && (forall i, c :: 0 <= i < |log| ==> (LedAt(events, more, i, c) <==> LedAt(events, log, i, c)))
      && (forall i, c :: 0 <= i < |log| ==> (StoredAt(events, more, i, c) <==> StoredAt(events, log, i, c)))
  {
  }

  lemma StillBetween(events: seq<Event>, log: seq<Outcome>, o: Outcome, i: nat, j: nat, m: nat, c: Corr)
    requires |log| < |events| && j <= |log| && j <= m
    ensures var more := log + [o];
      && (StoredBetween(events, log, i, j, c) ==> StoredBetween(events, more, i, m, c))
      && (InvitedBetween(events, log, i, j, c) ==> InvitedBetween(events, more, i, m, c))
      && (LedBetween(events, log, i, j, c) ==> LedBetween(events, more, i, m, c))
  {
    var more := log + [o];
    StillLed(events, log, o);
    if StoredBetween(events, log, i, j, c) {
      var k :| i < k < j && StoredAt(events, log, k, c);
      assert StoredAt(events, more, k, c);
    }
    if InvitedBetween(events, log, i, j, c) {
      var k :| i < k < j && StoredAt(events, log, k, c) && events[k].retryable;
      assert StoredAt(events, more, k, c);
    }
    if LedBetween(events, log, i, j, c) {
      var h :| i < h < j && LedAt(events, log, h, c);
      assert LedAt(events, more, h, c);
    }
  }

  lemma StillHour(events: seq<Event>, log: seq<Outcome>, o: Outcome, h: nat, i: nat, c: Corr)
    requires |log| < |events| && HourOf(events, log, h, i, c)
    ensures HourOf(events, log + [o], h, i, c)
  {
    StillLed(events, log, o);
  }

  lemma StillInTurn(events: seq<Event>, log: seq<Outcome>, o: Outcome, i: nat, j: nat, c: Corr)
    requires |log| < |events| && i < j < |log| && InTurn(events, log, i, j, c)
    ensures InTurn(events, log + [o], i, j, c)
  {
    StillLed(events, log, o);
    StillBetween(events, log, o, i, j, j, c);
    if LedAt(events, log, j, c) && HourOver(events, log, i, events[j].now, c) {
      var h :| 0 <= h <= i && HourOf(events, log, h, i, c) && events[j].now > events[h].now + HOUR;
      StillHour(events, log, o, h, i, c);
    }
  }

  lemma StillExpires(events: seq<Event>, log: seq<Outcome>, o: Outcome, expires: int, i: nat, c: Corr)
    requires |log| < |events| && Expires(events, log, expires, i, c)
    ensures Expires(events, log + [o], expires, i, c)
  {
    var h :| 0 <= h <= i && HourOf(events, log, h, i, c) && expires == events[h].now + HOUR;
    StillHour(events, log, o, h, i, c);
  }

  /** The turns so far, and those of an event that elects nobody. */
  lemma StillInTurns(events: seq<Event>, log: seq<Outcome>, o: Outcome)
    requires |log| < |events| && !o.Led? && forall i, j, c :: 0 <= i < j < |log| ==> InTurn(events, log, i, j, c)
    ensures forall i, j, c :: 0 <= i < j < |log| + 1 ==> InTurn(events, log + [o], i, j, c)
  {
    forall i, j, c | 0 <= i < j < |log| + 1 ensures InTurn(events, log + [o], i, j, c) {
      if j < |log| { StillInTurn(events, log, o, i, j, c); }
    }
  }

  lemma StillHeads(events: seq<Event>, log: seq<Outcome>, o: Outcome, elections: map<Corr, Election>, last: Last)
    requires |log| < |events| && Heads(events, log, elections, last) && !o.Led?
    ensures Heads(events, log + [o], elections, last)
  {
    StillLed(events, log, o);
  }

  lemma QuietLogged(events: seq<Event>, log: seq<Outcome>, elections: map<Corr, Election>, last: Last)
    requires Logged(events, log, elections, last) && |log| < |events|
    ensures Logged(events, log + [Neither], elections, last)
  {
    StillHeads(events, log, Neither, elections, last);
    StillInTurns(events, log, Neither);
    forall c | c in last ensures EndsWell(events, log + [Neither], elections[c], last[c], c) {
      StillBetween(events, log, Neither, last[c], |log|, |log| + 1, c);
    }
    forall c | c in last ensures Expires(events, log + [Neither], elections[c].expires, last[c], c) {
      StillExpires(events, log, Neither, elections[c].expires, last[c], c);
    }
  }

  // ----- an ending -----

  /** What the ending of a running execution does to the elections. */
  predicate Closes(e: Event, before: map<Corr, Election>, after: map<Corr, Election>) {
    e.Finishes? && e.corr in before && after == Ended(before, e.corr, e.envelope, e.retryable, e.replied && e.saved)
  }

  lemma EndsLast(events: seq<Event>, log: seq<Outcome>, i: nat, e: Election)
    requires |log| < |events| && events[|log|].Finishes? && i < |log|
    requires e.stored == (events[|log|].replied && events[|log|].saved) && e.retryable == (events[|log|].retryable && e.stored)
    ensures EndsWell(events, log + [Closed], e, i, events[|log|].corr)
  {
    assert e.stored ==> StoredAt(events, log + [Closed], |log|, events[|log|].corr);
  }

  lemma CloseEnds(events: seq<Event>, log: seq<Outcome>, elections: map<Corr, Election>, last: Last, after: map<Corr, Election>, c: Corr)
    requires Logged(events, log, elections, last) && |log| < |events| && Closes(events[|log|], elections, after) && c in last
    ensures EndsWell(events, log + [Closed], after[c], last[c], c)
  {
    if c == events[|log|].corr {
      EndsLast(events, log, last[c], after[c]);
    } else {
      assert EndsWell(events, log, elections[c], last[c], c);
      StillBetween(events, log, Closed, last[c], |log|, |log| + 1, c);
    }
  }

  lemma CloseExpires(events: seq<Event>, log: seq<Outcome>, elections: map<Corr, Election>, last: Last, after: map<Corr, Election>, c: Corr)
    requires Logged(events, log, elections, last) && |log| < |events| && Closes(events[|log|], elections, after) && c in last
    ensures Expires(events, log + [Closed], after[c].expires, last[c], c)
  {
    StillExpires(events, log, Closed, elections[c].expires, last[c], c);
  }

  lemma CloseHeads(events: seq<Event>, log: seq<Outcome>, elections: map<Corr, Election>, last: Last, after: map<Corr, Election>)
    requires |log| < |events| && Heads(events, log, elections, last) && Closes(events[|log|], elections, after)
    ensures Heads(events, log + [Closed], after, last)
  {
    StillHeads(events, log, Closed, elections, last);
    assert after.Keys == elections.Keys;
  }

  lemma CloseLogged(events: seq<Event>, log: seq<Outcome>, elections: map<Corr, Election>, last: Last, after: map<Corr, Election>)
    requires Logged(events, log, elections, last) && |log| < |events| && Closes(events[|log|], elections, after)
    ensures Logged(events, log + [Closed], after, last)
  {
    var more := log + [Closed];
    CloseHeads(events, log, elections, last, after);
    StillInTurns(events, log, Closed);
    forall c | c in last ensures c in after && EndsWell(events, more, after[c], last[c], c) && Expires(events, more, after[c].expires, last[c], c) {
      CloseEnds(events, log, elections, last, after, c);
      CloseExpires(events, log, elections, last, after, c);
    }
  }

  // ----- an election -----

  /** What an election does to the elections, and what it asks of the one before. */
  predicate Leads(e: Event, before: map<Corr, Election>, after: map<Corr, Election>) {
    e.Claims? && (e.corr !in before || MayElect(before[e.corr], e.digest, e.now)) && Elects(before, after, e.corr, e.digest, e.now)
  }

  /** The new leader comes in turn after the last one. */
  lemma NextTurn(events: seq<Event>, log: seq<Outcome>, elections: map<Corr, Election>, last: Last)
    requires Logged(events, log, elections, last) && |log| < |events| && events[|log|].Claims?
    requires var e := events[|log|]; e.corr in elections && MayElect(elections[e.corr], e.digest, e.now)
    ensures InTurn(events, log + [Led], last[events[|log|].corr], |log|, events[|log|].corr)
  {
    var e, n := events[|log|], |log|;
    var p := last[e.corr];
    assert EndsWell(events, log, elections[e.corr], p, e.corr);
    StillBetween(events, log, Led, p, n, n, e.corr);
    if elections[e.corr].expires < e.now { StillExpires(events, log, Led, elections[e.corr].expires, p, e.corr); }
  }

  /** And so it comes in turn after every earlier one. */
  lemma LaterTurn(events: seq<Event>, log: seq<Outcome>, i: nat, p: nat, n: nat, c: Corr)
    requires |log| <= |events| && i < p < n && LedAt(events, log, p, c) && InTurn(events, log, p, n, c)
    ensures LedAt(events, log, n, c) ==> InTurn(events, log, i, n, c)
  {
    if LedAt(events, log, n, c) {
      var k :| p < k < n && StoredAt(events, log, k, c);
    }
  }

  /** Its hour: a new one, or, for an invited repeat, the one that runs. */
  lemma NewExpires(events: seq<Event>, log: seq<Outcome>, elections: map<Corr, Election>, last: Last, after: map<Corr, Election>)
    requires Logged(events, log, elections, last) && |log| < |events| && Leads(events[|log|], elections, after)
    ensures Expires(events, log + [Led], after[events[|log|].corr].expires, |log|, events[|log|].corr)
  {
    var e, n, more := events[|log|], |log|, log + [Led];
    StillLed(events, log, Led);
    assert LedAt(events, more, n, e.corr);
    if after[e.corr].expires == e.now + HOUR {
      assert HourOf(events, more, n, n, e.corr);
    } else {
      var p := last[e.corr];
      assert Expires(events, log, elections[e.corr].expires, p, e.corr);
      var h :| 0 <= h <= p && HourOf(events, log, h, p, e.corr) && elections[e.corr].expires == events[h].now + HOUR;
      assert HourOf(events, more, h, n, e.corr);
    }
  }

  lemma NewHeads(events: seq<Event>, log: seq<Outcome>, elections: map<Corr, Election>, last: Last, after: map<Corr, Election>)
    requires |log| < |events| && Heads(events, log, elections, last) && Leads(events[|log|], elections, after)
    ensures Heads(events, log + [Led], after, last[events[|log|].corr := |log|])
  {
    StillLed(events, log, Led);
    assert LedAt(events, log + [Led], |log|, events[|log|].corr);
    assert after.Keys == elections.Keys + {events[|log|].corr};
  }

  lemma NewInTurns(events: seq<Event>, log: seq<Outcome>, elections: map<Corr, Election>, last: Last, after: map<Corr, Election>)
    requires Logged(events, log, elections, last) && |log| < |events| && Leads(events[|log|], elections, after)
    ensures forall i, j, c :: 0 <= i < j < |log| + 1 ==> InTurn(events, log + [Led], i, j, c)
  {
    StillLed(events, log, Led);
    forall i, j, c | 0 <= i < j < |log| + 1 ensures InTurn(events, log + [Led], i, j, c) {
      NewInTurn(events, log, elections, last, after, i, j, c);
    }
  }

  lemma NewInTurn(events: seq<Event>, log: seq<Outcome>, elections: map<Corr, Election>, last: Last, after: map<Corr, Election>, i: nat, j: nat, c: Corr)
    requires Logged(events, log, elections, last) && |log| < |events| && Leads(events[|log|], elections, after) && i < j <= |log|
    ensures InTurn(events, log + [Led], i, j, c)
  {
    StillLed(events, log, Led);
    if j < |log| {
      StillInTurn(events, log, Led, i, j, c);
    } else if LedAt(events, log, i, c) && c == events[|log|].corr {
      NextTurn(events, log, elections, last);
      if i < last[c] { LaterTurn(events, log + [Led], i, last[c], j, c); }
    }
  }

  lemma LeadLogged(events: seq<Event>, log: seq<Outcome>, elections: map<Corr, Election>, last: Last, after: map<Corr, Election>)
    requires Logged(events, log, elections, last) && |log| < |events| && Leads(events[|log|], elections, after)
    ensures Logged(events, log + [Led], after, last[events[|log|].corr := |log|])
  {
    var d := events[|log|].corr;
    var next := last[d := |log|];
    NewHeads(events, log, elections, last, after);
    NewInTurns(events, log, elections, last, after);
    NewExpires(events, log, elections, last, after);
    forall c | c in next ensures EndsWell(events, log + [Led], after[c], next[c], c) {
      if c != d { StillBetween(events, log, Led, last[c], |log|, |log| + 1, c); }
    }
    forall c | c in next ensures Expires(events, log + [Led], after[c].expires, next[c], c) {
      if c != d { StillExpires(events, log, Led, elections[c].expires, last[c], c); }
    }
  }

  // ----- whatever happens -----

  /** What an event does to the elections. */
  predicate Becomes(e: Event, before: map<Corr, Election>, after: map<Corr, Election>, o: Outcome) {
    match o
    case Led => Leads(e, before, after)
    case Closed => Closes(e, before, after)
    case Neither => after == before
  }

  method Happen(table: Table, e: Event, clock: int) returns (o: Outcome, later: int)
    requires table.Valid() && clock == table.clock
    modifies table, table.receipts.Values
    ensures table.Valid() && later == table.clock
    ensures fresh(table.receipts.Values - old(table.receipts.Values))
    ensures Becomes(e, old(table.elections), table.elections, o)
  {
    o, later := Neither, clock;
    match e {
      case Claims(corr, digest, interrupted, now, saved, readable) =>
        if now >= clock {
          var part, receipt := table.ClaimInvocation(corr, digest, interrupted, now, saved, readable);
          later := now;
          if part.Leader? { o := Led; }
        }
      case Finishes(corr, envelope, failure, retryable, replied, saved) =>
        var running := corr in table.receipts && !table.receipts[corr].completed;
        var sent := table.FinishInvocation(corr, envelope, failure, retryable, replied, saved);
        if running { o := Closed; }
      case Restarts => table.Restart();
    }
  }

  lemma StepLogged(events: seq<Event>, log: seq<Outcome>, elections: map<Corr, Election>, last: map<Corr, nat>, after: map<Corr, Election>, o: Outcome)
    returns (next: Last)
    requires Logged(events, log, elections, last) && |log| < |events| && Becomes(events[|log|], elections, after, o)
    ensures Logged(events, log + [o], after, next)
  {
    next := last;
    match o
    case Led =>
      LeadLogged(events, log, elections, last, after);
      next := last[events[|log|].corr := |log|];
    case Closed => CloseLogged(events, log, elections, last, after);
    case Neither => QuietLogged(events, log, elections, last);
  }

  lemma NothingLogged(events: seq<Event>, log: seq<Outcome>, elections: map<Corr, Election>, last: Last)
    requires |log| == 0 && elections.Keys == {} && last.Keys == {}
    ensures Logged(events, log, elections, last)
  {
  }

  /** One event, and its place in the log. */
  method Continue(table: Table, events: seq<Event>, log: seq<Outcome>, ghost last: Last, clock: int)
    returns (more: seq<Outcome>, ghost next: Last, later: int)
    requires table.Valid() && clock == table.clock && |log| < |events| && Logged(events, log, table.elections, last)
    modifies table, table.receipts.Values
    ensures table.Valid() && later == table.clock && |more| == |log| + 1 && Logged(events, more, table.elections, next)
    ensures fresh(table.receipts.Values - old(table.receipts.Values))
  {
    var o;
    o, later := Happen(table, events[|log|], clock);
    next := StepLogged(events, log, old(table.elections), last, table.elections, o);
    more := log + [o];
  }

  /** Any sequence of events from an empty store on; a claim dated before an earlier one is passed over. There is
      never a second leader before the first has ended and its end was stored; and then only if that end invited a
      repeat, of the same input, or when the hour is over. */
  method Play(events: seq<Event>) returns (log: seq<Outcome>)
    ensures |log| == |events|
    ensures forall i, j, c :: 0 <= i < j < |events| ==> InTurn(events, log, i, j, c)
  {
    var table := new Table();
    var clock := 0;
    ghost var last: Last := map[];
    log := [];
    NothingLogged(events, log, table.elections, last);
    for n := 0 to |events|
      invariant table.Valid() && fresh(table) && fresh(table.receipts.Values) && |log| == n && clock == table.clock
      invariant Logged(events, log, table.elections, last)
    {
      log, last, clock := Continue(table, events, log, last, clock);
    }
  }
}
