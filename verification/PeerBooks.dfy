/** The agent's books beside its peer sessions: deliveries applied, cancellation receipts, and recoveries, each a
    first-in first-out index of at most 256 entries. Methods are sections under the agent mutex. */
module PeerBooks {
  import opened Prelude

  type Id = string
  type Ref = nat

  const BOUND: nat := 256

  // ----- an order beside a set -----

  /** The order lists each key once. */
  ghost predicate Indexed(order: seq<Id>, keys: set<Id>) {
    |order| <= BOUND && Distinct(order) && forall x :: x in keys <==> x in order
  }

  function Without(s: seq<Id>, x: Id): seq<Id> {
    if s == [] then [] else (if s[0] == x then [] else [s[0]]) + Without(s[1..], x)
  }

  lemma {:induction false} WithoutConcat(a: seq<Id>, b: seq<Id>, x: Id)
    ensures Without(a + b, x) == Without(a, x) + Without(b, x)
  {
    if a == [] {
      assert a + b == b;
    } else {
      assert (a + b)[1..] == a[1..] + b;
      WithoutConcat(a[1..], b, x);
    }
  }

  lemma {:induction false} WithoutAbsent(s: seq<Id>, x: Id)
    ensures x !in s ==> Without(s, x) == s
  {
    if s != [] { WithoutAbsent(s[1..], x); }
  }

  /** Deleting a key keeps the order of the others. */
  lemma {:induction false} WithoutKeeps(s: seq<Id>, x: Id)
    ensures forall y :: y in Without(s, x) <==> y in s && y != x
    ensures Distinct(s) ==> Distinct(Without(s, x)) && |Without(s, x)| == |s| - (if x in s then 1 else 0)
  {
    if s != [] {
      WithoutKeeps(s[1..], x);
      if Distinct(s) {
        assert s[0] !in s[1..];
        assert Distinct(s[1..]);
      }
    }
  }

  /** The loop that deletes an id from an order in place. */
  method DeleteAll(given: seq<Id>, x: Id) returns (order: seq<Id>)
    ensures order == Without(given, x)
  {
    order := given;
    var i := 0;
    while i < |order|
      invariant i <= |order| && x !in order[..i]
      invariant Without(order, x) == Without(given, x)
      decreases |order| - i
    {
      if order[i] != x {
        i := i + 1;
      } else {
        assert order == order[..i] + [x] + order[i + 1..];
        WithoutConcat(order[..i] + [x], order[i + 1..], x);
        WithoutConcat(order[..i], [x], x);
        WithoutConcat(order[..i], order[i + 1..], x);
        assert Without([x], x) == [];
        order := order[..i] + order[i + 1..];
      }
    }
    assert order[..i] == order;
    WithoutAbsent(order, x);
  }

  /** A key joins at the end; the oldest leaves if there is no room. */
  function Joined(order: seq<Id>, x: Id): seq<Id> {
    if |order| < BOUND then order + [x] else order[1..] + [x]
  }

  function Leaving(order: seq<Id>): set<Id> {
    if |order| < BOUND then {} else {order[0]}
  }

  lemma JoinedKeeps(order: seq<Id>, keys: set<Id>, x: Id)
    requires Indexed(order, keys) && x !in keys
    ensures Indexed(Joined(order, x), keys + {x} - Leaving(order)) && x !in Leaving(order)
  {
    var rest := if |order| < BOUND then order else order[1..];
    assert |order| >= BOUND ==> order[0] !in rest;
    forall y ensures y in keys + {x} - Leaving(order) <==> y in Joined(order, x) {
      assert y in order <==> y in rest || (|order| >= BOUND && y == order[0]);
      assert y in Joined(order, x) <==> y in rest || y == x;
    }
    assert Distinct(rest);
    assert Distinct(rest + [x]);
  }

  function JoinedAll(order: seq<Id>, xs: seq<Id>): seq<Id>
    decreases |xs|
  {
    if xs == [] then order else JoinedAll(Joined(order, xs[0]), xs[1..])
  }

  /** Whatever joins, the order is the last 256 of all that joined: an entry outlives exactly the 255 after it. */
  lemma {:induction false} LastOnes(order: seq<Id>, xs: seq<Id>)
    requires |order| <= BOUND
    decreases |xs|
    ensures var all := order + xs;
            JoinedAll(order, xs) == if |all| <= BOUND then all else all[|all| - BOUND..]
  {
    if xs == [] {
      assert order + xs == order;
    } else {
      LastOnes(Joined(order, xs[0]), xs[1..]);
      assert order + xs == (order + [xs[0]]) + xs[1..];
      if |order| == BOUND { assert order[1..] + [xs[0]] + xs[1..] == (order + xs)[1..]; }
    }
  }

  /** Every key is in the order. A delivery that two connections handle at once is in it twice. */
  ghost predicate Covered(order: seq<Id>, keys: set<Id>) {
    |order| <= BOUND && forall x :: x in keys ==> x in order
  }

  lemma JoinedCovers(order: seq<Id>, keys: set<Id>, x: Id)
    requires Covered(order, keys)
    ensures Covered(Joined(order, x), keys + {x} - Leaving(order))
  {
    var rest := if |order| < BOUND then order else order[1..];
    assert order != [] ==> order == [order[0]] + order[1..];
    forall y | y in keys + {x} - Leaving(order) ensures y in Joined(order, x) {
      assert Joined(order, x)[|rest|] == x;
      if y != x { assert y in order && y in rest; }
    }
  }

  lemma {:induction false} WithoutShorter(s: seq<Id>, x: Id)
    ensures |Without(s, x)| <= |s|
  {
    if s != [] { WithoutShorter(s[1..], x); }
  }

  lemma WithoutIndexed(order: seq<Id>, keys: set<Id>, x: Id)
    requires Indexed(order, keys)
    ensures Indexed(Without(order, x), keys - {x})
  {
    WithoutKeeps(order, x);
  }

  // ----- deliveries -----

  datatype Phase = Completed | Failed | Expired | Cancelled | Live

  datatype Kind = Update(phase: Phase) | Other

  /** What becomes of a delivery: acknowledged again, handled, or left for later. */
  datatype Admission = AckAgain | Handle | Later

  class Books {
    var sessions: map<Id, Ref>
    var deliveries: set<Id>
    var deliveryOrder: seq<Id>
    var receipts: set<Id>
    var receiptOrder: seq<Id>
    var recovery: map<Id, Ref>
    var recoveryOrder: seq<Id>

    ghost predicate Valid()
      reads this
    {
      Covered(deliveryOrder, deliveries) && Indexed(receiptOrder, receipts) && Indexed(recoveryOrder, recovery.Keys)
    }

    constructor ()
      ensures Valid() && sessions == map[] && recovery == map[] && receipts == {} && deliveries == {} && deliveryOrder == []
    {
      sessions, recovery, recoveryOrder := map[], map[], [];
      deliveries, receipts, deliveryOrder, receiptOrder := {}, {}, [], [];
    }

    /** deletePluginPeerCancelRecoveryLocked */
    method DeleteRecovery(id: Id)
      requires Valid()
      modifies `recovery, `recoveryOrder
      ensures Valid() && recovery == old(recovery) - {id} && recoveryOrder == Without(old(recoveryOrder), id)
    {
      recovery := recovery - {id};
      WithoutIndexed(recoveryOrder, old(recovery).Keys, id);
      recoveryOrder := DeleteAll(recoveryOrder, id);
      assert recovery.Keys == old(recovery).Keys - {id};
    }

    /** recordPluginPeerCancelReceipt: the debt of the session is settled, so it needs no recovery. */
    method RecordReceipt(id: Id)
      requires Valid()
      modifies `recovery, `recoveryOrder, `receipts, `receiptOrder
      ensures Valid() && id in receipts && recovery == old(recovery) - {id}
      ensures id in old(receipts) ==> receipts == old(receipts) && receiptOrder == old(receiptOrder)
      ensures id !in old(receipts) ==>
        receiptOrder == Joined(old(receiptOrder), id) && receipts == old(receipts) + {id} - Leaving(old(receiptOrder))
    {
      DeleteRecovery(id);
      if id in receipts { return; }
      JoinedKeeps(receiptOrder, receipts, id);
      receipts := receipts + {id};
      receiptOrder := receiptOrder + [id];
      if |receiptOrder| > BOUND {
        var oldest := receiptOrder[0];
        receiptOrder := receiptOrder[1..];
        receipts := receipts - {oldest};
      }
      assert receiptOrder == Joined(old(receiptOrder), id);
      assert receipts == old(receipts) + {id} - Leaving(old(receiptOrder));
    }

    /** recordPluginPeerCancelRecovery: the session to recover from is remembered, in place of an earlier one of its
        id; otherwise at most the oldest other debt is forgotten. */
    method RecordRecovery(id: Id, s: Ref)
      requires Valid()
      modifies `recovery, `recoveryOrder
      ensures Valid() && id in recovery && recovery[id] == s
      ensures id in old(recovery) ==> recovery == old(recovery)[id := s] && recoveryOrder == old(recoveryOrder)
      ensures id !in old(recovery) ==>
        recoveryOrder == Joined(old(recoveryOrder), id) && recovery == old(recovery)[id := s] - Leaving(old(recoveryOrder))
    {
      if id !in recovery {
        JoinedKeeps(recoveryOrder, recovery.Keys, id);
        recoveryOrder := recoveryOrder + [id];
      }
      recovery := recovery[id := s];
      assert recovery.Keys == old(recovery).Keys + {id};
      if |recoveryOrder| > BOUND {
        ghost var order := old(recoveryOrder);
        Evict();
        assert recoveryOrder == Joined(order, id);
        assert recovery.Keys == old(recovery).Keys + {id} - Leaving(order);
      }
    }

    /** The loop that forgets the oldest recoveries; it has one to forget. */
    method Evict()
      requires |recoveryOrder| == BOUND + 1
      modifies `recovery, `recoveryOrder
      ensures recoveryOrder == old(recoveryOrder)[1..] && recovery == old(recovery) - {old(recoveryOrder)[0]}
    {
      while |recoveryOrder| > BOUND
        invariant (recoveryOrder == old(recoveryOrder) && recovery == old(recovery))
                  || (recoveryOrder == old(recoveryOrder)[1..] && recovery == old(recovery) - {old(recoveryOrder)[0]})
        decreases |recoveryOrder|
      {
        var oldest := recoveryOrder[0];
        recoveryOrder := recoveryOrder[1..];
        recovery := recovery - {oldest};
      }
    }

    /** removePluginPeerCancelRecovery: only the debt of this very session goes. */
    method RemoveRecovery(id: Id, s: Ref)
      requires Valid()
      modifies `recovery, `recoveryOrder
      ensures Valid()
      ensures recovery == if id in old(recovery) && old(recovery)[id] == s then old(recovery) - {id} else old(recovery)
    {
      if id in recovery && recovery[id] == s { DeleteRecovery(id); }
    }

    /** pluginPeerDeliveryReplaySafe; `closed` is read under the session's own mutex. */
    predicate ReplaySafe(session: Id, closed: bool, kind: Kind)
      reads this
    {
      (session in sessions && !closed)
      || (kind.Update? && (kind.phase == Completed || kind.phase == Failed || kind.phase == Expired
                           || (kind.phase == Cancelled && session in receipts)))
    }

    /** releasePluginPeerDeliveryForReplay */
    method Release(session: Id, delivery: Id) returns (released: bool)
      requires Valid()
      modifies `deliveries, `deliveryOrder
      ensures Valid() && (released <==> session !in sessions)
      ensures deliveries == (if released then old(deliveries) - {delivery} else old(deliveries))
      ensures deliveryOrder == (if released then Without(old(deliveryOrder), delivery) else old(deliveryOrder))
    {
      if session in sessions { return false; }
      WithoutKeeps(deliveryOrder, delivery);
      WithoutShorter(deliveryOrder, delivery);
      deliveries := deliveries - {delivery};
      deliveryOrder := DeleteAll(deliveryOrder, delivery);
      released := true;
    }

    /** The head of handlePluginPeerDelivery: a delivery that was applied is acknowledged again only where that is
        safe; one whose session is gone is applied anew; one whose session is still closing waits. */
    method Admit(session: Id, closed: bool, delivery: Id, kind: Kind) returns (a: Admission)
      requires Valid()
      modifies `deliveries, `deliveryOrder
      ensures Valid()
      ensures a == AckAgain <==> delivery in old(deliveries) && ReplaySafe(session, closed, kind)
      ensures a == Later <==> delivery in old(deliveries) && !ReplaySafe(session, closed, kind) && session in sessions
      ensures a == Handle ==> delivery !in deliveries
      ensures deliveries == old(deliveries) - (if a == Handle then {delivery} else {})
      ensures deliveryOrder == if a == Handle && delivery in old(deliveries) then Without(old(deliveryOrder), delivery) else old(deliveryOrder)
    {
      var duplicate := delivery in deliveries;
      if duplicate && !ReplaySafe(session, closed, kind) {
        var released := Release(session, delivery);
        if !released { return Later; }
        duplicate := false;
      }
      a := if duplicate then AckAgain else Handle;
    }

    /** The tail of handlePluginPeerDelivery: a delivery that was handled is remembered, and then acknowledged. It is
        forgotten at once only if another connection has handled it too, and so long ago that it is the oldest of a
        full order; without such repeats the order stays in step. */
    method Remember(delivery: Id)
      requires Valid()
      modifies `deliveries, `deliveryOrder
      ensures Valid()
      ensures deliveryOrder == Joined(old(deliveryOrder), delivery)
      ensures deliveries == old(deliveries) + {delivery} - Leaving(old(deliveryOrder))
      ensures delivery in deliveries <==> !(|old(deliveryOrder)| == BOUND && old(deliveryOrder)[0] == delivery)
      ensures old(Indexed(deliveryOrder, deliveries)) && delivery !in old(deliveries) ==> Indexed(deliveryOrder, deliveries) && delivery in deliveries
    {
      JoinedCovers(deliveryOrder, deliveries, delivery);
      if Indexed(deliveryOrder, deliveries) && delivery !in deliveries { JoinedKeeps(deliveryOrder, deliveries, delivery); }
      deliveries := deliveries + {delivery};
      deliveryOrder := deliveryOrder + [delivery];
      if |deliveryOrder| > BOUND {
        var oldest := deliveryOrder[0];
        deliveryOrder := deliveryOrder[1..];
        deliveries := deliveries - {oldest};
      }
      assert deliveryOrder == Joined(old(deliveryOrder), delivery);
      assert deliveries == old(deliveries) + {delivery} - Leaving(old(deliveryOrder));
    }

    /** dropPluginPeer: the session leaves, if it still is the one of its id; with the last one go the deliveries. */
    method Drop(id: Id, s: Ref)
      requires Valid()
      modifies `sessions, `deliveries, `deliveryOrder
      ensures Valid()
      ensures sessions == if id in old(sessions) && old(sessions)[id] == s then old(sessions) - {id} else old(sessions)
      ensures deliveries == if sessions == map[] && old(sessions) != map[] then {} else old(deliveries)
    {
      if id in sessions && sessions[id] == s {
        sessions := sessions - {id};
        if |sessions| == 0 {
          deliveries, deliveryOrder := {}, [];
        }
      }
    }

    /** A loop over a map of sessions that passes over those already taken. */
    method Collect(m: map<Id, Ref>, taken: set<Ref>) returns (out: seq<Ref>)
      requires forall a, b :: a in m && b in m && m[a] == m[b] ==> a == b
      ensures Distinct(out) && forall s :: s in out <==> s in m.Values && s !in taken
    {
      out := [];
      var keys := m.Keys;
      while keys != {}
        invariant keys <= m.Keys && Distinct(out)
        invariant forall s :: s in out ==> s !in taken && exists k :: k in m && k !in keys && m[k] == s
        invariant forall k :: k in m && k !in keys && m[k] !in taken ==> m[k] in out
        decreases |keys|
      {
        var k :| k in keys;
        keys := keys - {k};
        if m[k] !in taken {
          assert m[k] !in out;
          out := out + [m[k]];
        }
      }
    }

    /** takePluginPeersLocked: every session, and every recovery that is not one of them, once. */
    method TakeAll() returns (out: seq<Ref>)
      requires Valid() && forall a, b :: a in sessions && b in sessions && sessions[a] == sessions[b] ==> a == b
      requires forall a, b :: a in recovery && b in recovery && recovery[a] == recovery[b] ==> a == b
      modifies `deliveries, `deliveryOrder
      ensures Valid() && Distinct(out)
      ensures forall s :: s in out <==> s in sessions.Values || s in recovery.Values
      ensures deliveries == if out == [] then {} else old(deliveries)
    {
      var live := Collect(sessions, {});
      var owing := Collect(recovery, sessions.Values);
      out := live + owing;
      assert forall s :: s in out <==> s in live || s in owing;
      forall i, j | 0 <= i < j < |out| ensures out[i] != out[j] {
        if i < |live| <= j { assert live[i] in sessions.Values && owing[j - |live|] !in sessions.Values; }
      }
      if |out| == 0 {
        deliveries, deliveryOrder := {}, [];
      }
    }
  }

  // ----- a delivery forgotten at once -----

  function OtherId(n: nat): Id {
    seq(n + 1, _ => 'x')
  }

  /** Two connections handle one delivery at once, and so much is handled in between that it is the oldest of a full
      order when the slower one is done: the delivery was handled twice, and is not remembered. */
  method TwoConnections(delivery: Id, session: Id) returns (books: Books)
    ensures fresh(books) && books.Valid() && |books.deliveryOrder| == BOUND
    ensures delivery !in books.deliveries && books.deliveryOrder[BOUND - 1] == delivery
  {
    books := new Books();
    var first := books.Admit(session, true, delivery, Other);
    var second := books.Admit(session, true, delivery, Other);
    assert first == second == Handle;
    books.Remember(delivery);
    for i := 0 to BOUND - 1
      invariant fresh(books) && books.Valid()
      invariant |books.deliveryOrder| == i + 1 && books.deliveryOrder[0] == delivery
    {
      books.Remember(OtherId(i));
    }
    books.Remember(delivery);
  }
}
