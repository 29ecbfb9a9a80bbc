/** The way of DATA out of one plugin epoch: buffered before the round is ready, flushed in order when
    it becomes ready, then sent directly, and closed by one peer_done behind the last byte. Each method
    is one section under the session mutex, or one send between two of them; goroutines call them in
    any order, so what Valid says holds in every interleaving. */
module PeerData {
  import opened Prelude

  const INBOX_MAX := 128
  const INBOX_BYTES_MAX := 2 * 1024 * 1024

  type Chunk = seq<bv8>

  /** The goroutine that drains the queue after activation. */
  datatype Flusher = NotStarted | Looking | Holding(chunk: Chunk) | Exited

  /** The goroutine of finishLocalHalf: waiting for the channel to drain, or between peer_done and its flag. */
  datatype Drainer = NoDrainer | Draining | Announced

  datatype Fate = Buffered | Handed | Drained | OutsideLifetime | Backpressure

  /** What the goroutines, the plugin and the transport may do, in any order. */
  datatype Event = Readies | Emits(data: Chunk) | SendsDirect | Activates | FlushTurns | SendsHeld | Completes | AnnouncesDone | MarksDone | Breaks | Fails

  predicate Accepts(e: Event, f: Option<Fate>) {
    e.Emits? && (f == Some(Buffered) || f == Some(Handed))
  }

  function Bytes(q: seq<Chunk>): nat {
    if |q| == 0 then 0 else Bytes(q[..|q| - 1]) + |q[|q| - 1]|
  }

  lemma {:induction false} BytesFront(q: seq<Chunk>)
    requires |q| > 0
    ensures Bytes(q) == |q[0]| + Bytes(q[1..])
  {
    if |q| == 1 {
      assert q[..0] == [] && q[1..] == [];
    } else {
      var n := |q| - 1;
      assert q[1..][..n - 1] == q[..n][1..] && q[1..][n - 1] == q[n];
      BytesFront(q[..n]);
    }
  }

  class DataPath {
    // the epoch
    var ready: bool
    var interrupted: bool
    var localComplete: bool
    var flushing: bool
    var pending: seq<Chunk>
    var pendingBytes: nat
    // the round
    var dataOpen: bool
    var localDoneSent: bool
    var localDoneDraining: bool
    // the session
    var closed: bool
    // goroutines between two sections
    var direct: Option<Chunk>
    var flusher: Flusher
    var drainer: Drainer
    // what the channel was given: the chunks, and how many of them went before each peer_done
    var wire: seq<Chunk>
    var dones: seq<nat>
    // what the plugin has emitted
    ghost var emitted: seq<Chunk>

    predicate Live()
      reads this
    {
      !closed && !interrupted
    }

    /** What has left the queue and is not on the wire yet. */
    function InFlight(): seq<Chunk>
      reads this
    {
      (if flusher.Holding? then [flusher.chunk] else []) + (if direct.Some? then [direct.value] else [])
    }

    ghost predicate Valid()
      reads this
    {
      && pendingBytes == Bytes(pending) <= INBOX_BYTES_MAX && |pending| <= INBOX_MAX
      && (Live() ==> emitted == wire + InFlight() + pending)
      && (Live() && dataOpen && !flushing ==> pending == [] && flusher.Exited?)
      && (!dataOpen ==> !flushing && flusher.NotStarted? && direct.None? && wire == [] && dones == [])
      && (Live() && flusher.Holding? ==> flushing)
      && (Live() && flushing ==> direct.None? && !flusher.Exited?)
      && (localComplete ==> direct.None?)
      && |dones| == (if drainer.Announced? || localDoneSent then 1 else 0)
      && (localDoneDraining <==> !drainer.NoDrainer?)
      && !(localDoneSent && localDoneDraining)
      && (localDoneSent || localDoneDraining ==> dataOpen && localComplete)
      && (Live() && (localDoneSent || localDoneDraining) ==> !flushing)
      && (dones != [] ==> dones[0] == |wire|)
    }

    constructor ()
      ensures Valid() && Live() && emitted == [] && !ready && !dataOpen
    {
      ready, interrupted, localComplete, flushing, dataOpen, closed := false, false, false, false, false, false;
      localDoneSent, localDoneDraining := false, false;
      pending, pendingBytes, wire, dones, emitted := [], 0, [], [], [];
      direct, flusher, drainer := None, NotStarted, NoDrainer;
    }

    method PluginReady()
      requires Valid()
      modifies `ready
      ensures Valid() && ready
    {
      ready := true;
    }

    /** failEpoch: nothing moves after it. */
    method Fail()
      requires Valid()
      modifies `closed
      ensures Valid() && closed
    {
      closed := true;
    }

    /** sendPluginData. The reader calls it only when its previous chunk is on its way. */
    method Emit(data: Chunk) returns (fate: Fate)
      requires Valid() && direct.None?
      modifies this
      ensures Valid()
      ensures fate.OutsideLifetime? <==> old(closed || !ready || localComplete)
      ensures fate.Drained? <==> old(!closed && ready && !localComplete && interrupted)
      ensures fate.Backpressure? <==>
        old(Live() && ready && !localComplete && (!dataOpen || flushing)
            && (|pending| >= INBOX_MAX || Bytes(pending) + |data| > INBOX_BYTES_MAX))
      ensures fate.Buffered? ==> pending == old(pending) + [data] && emitted == old(emitted) + [data] && InFlight() == old(InFlight())
      ensures fate.Handed? ==> direct == Some(data) && emitted == old(emitted) + [data] && old(pending) == pending == []
      ensures !fate.Buffered? && !fate.Handed? ==> emitted == old(emitted) && pending == old(pending)
      ensures fate.Backpressure? || fate.OutsideLifetime? ==> closed
      ensures wire == old(wire) && dones == old(dones)
    {
      if closed || !ready || localComplete {
        closed := true;
        return OutsideLifetime;
      }
      if interrupted { return Drained; }
      if !dataOpen || flushing {
        if |pending| >= INBOX_MAX || pendingBytes + |data| > INBOX_BYTES_MAX {
          closed := true;
          return Backpressure;
        }
        assert (pending + [data])[..|pending|] == pending;
        pending := pending + [data];
        pendingBytes := pendingBytes + |data|;
        emitted := emitted + [data];
        return Buffered;
      }
      direct := Some(data);
      emitted := emitted + [data];
      return Handed;
    }

    /** sendPluginDataNow for the chunk the reader handed over. */
    method SendDirect()
      requires Valid() && direct.Some?
      modifies this
      ensures Valid() && direct.None? && emitted == old(emitted)
      ensures old(Live()) ==> wire == old(wire) + [old(direct).value]
    {
      var chunk := direct.value;
      ghost var sent := wire;
      assert Live() ==> emitted == sent + [chunk] by {
        assert Live() ==> InFlight() == [chunk] && pending == [];
        assert sent + [chunk] + [] == sent + [chunk];
      }
      direct := None;
      if Live() && dataOpen {
        wire := wire + [chunk];
        assert InFlight() == [] && wire + [] + [] == wire;
      }
    }

    /** activateRound: from here on DATA may flow, but what was buffered goes first. */
    method Activate() returns (begun: bool)
      requires Valid()
      modifies this
      ensures Valid() && begun == (old(Live()) && !old(dataOpen))
      ensures begun ==> dataOpen && flushing && flusher.Looking? && pending == old(pending) && wire == []
      ensures emitted == old(emitted) && dones == old(dones)
    {
      begun := Live() && !dataOpen;
      if begun {
        dataOpen, flushing, flusher := true, true, Looking;
      }
    }

    /** One turn of flushPluginQueue: takes the oldest chunk, or ends the flush. */
    method FlushTurn()
      requires Valid() && flusher.Looking?
      modifies this
      ensures Valid() && emitted == old(emitted) && wire == old(wire) && dones == old(dones)
      ensures old(Live()) && old(pending) != [] ==> flusher == Holding(old(pending)[0]) && pending == old(pending)[1..]
      ensures old(Live()) && old(pending) == [] ==> !flushing && flusher.Exited?
      ensures old(Live()) && old(pending) == [] && localComplete ==> localDoneSent || localDoneDraining
    {
      if !Live() || !dataOpen {
        flusher := Exited;
        return;
      }
      if |pending| == 0 {
        flushing, flusher := false, Exited;
        if localComplete { FinishLocalHalf(); }
        return;
      }
      BytesFront(pending);
      assert pending == [pending[0]] + pending[1..];
      flusher, pendingBytes := Holding(pending[0]), pendingBytes - |pending[0]|;
      pending := pending[1..];
    }

    method SendHeld()
      requires Valid() && flusher.Holding?
      modifies this
      ensures Valid() && flusher.Looking? && emitted == old(emitted)
      ensures old(Live()) ==> wire == old(wire) + [old(flusher).chunk]
    {
      var chunk := flusher.chunk;
      ghost var sent := wire;
      assert Live() ==> emitted == sent + [chunk] + pending by {
        assert Live() ==> InFlight() == [chunk];
      }
      flusher := Looking;
      if Live() && dataOpen {
        wire := wire + [chunk];
        assert InFlight() == [] && wire + [] + pending == wire + pending;
      }
    }

    /** The plugin reports complete; its reader ends. */
    method Complete() returns (ok: bool)
      requires Valid() && direct.None?
      modifies this
      ensures Valid() && emitted == old(emitted) && wire == old(wire) && dones == old(dones)
      ensures ok ==> localComplete
      ensures ok && Live() && dataOpen && !flushing ==> localDoneSent || localDoneDraining
    {
      if !Live() || !ready || localComplete {
        if !interrupted { closed := true; }
        return false;
      }
      localComplete := true;
      if dataOpen && !flushing { FinishLocalHalf(); }
      return true;
    }

    /** Starts the drainer unless one is, or was, at work. */
    method FinishLocalHalf()
      requires Valid()
      modifies `localDoneDraining, `drainer
      ensures Valid()
      ensures Live() && dataOpen && localComplete && !flushing ==> localDoneSent || localDoneDraining
      ensures old(localDoneDraining) ==> localDoneDraining && drainer == old(drainer)
    {
      if !Live() || !dataOpen || !localComplete || flushing || localDoneSent || localDoneDraining { return; }
      localDoneDraining, drainer := true, Draining;
    }

    /** The channel has drained; peer_done is sent. */
    method AnnounceDone()
      requires Valid() && drainer.Draining?
      modifies this
      ensures Valid()
      ensures old(Live()) ==> dones == [|wire|] && drainer.Announced? && wire == emitted
      ensures emitted == old(emitted) && wire == old(wire)
    {
      if Live() {
        assert wire + [] + [] == wire;
        dones := dones + [|wire|];
        drainer := Announced;
      }
    }

    method MarkDone()
      requires Valid() && drainer.Announced?
      modifies this
      ensures Valid() && wire == old(wire) && dones == old(dones) && emitted == old(emitted)
      ensures localDoneSent && !localDoneDraining
    {
      localDoneSent, localDoneDraining, drainer := true, false, NoDrainer;
    }

    /** interruptRound: the queue belongs to a dead transport. */
    method Interrupt()
      requires Valid()
      modifies this
      ensures Valid() && interrupted && wire == old(wire) && dones == old(dones) && pending == [] && emitted == old(emitted)
    {
      interrupted := true;
      pending, pendingBytes, flushing := [], 0, false;
    }

    /** One event, if it can happen now. */
    method Happen(event: Event) returns (fate: Option<Fate>)
      requires Valid()
      modifies this
      ensures Valid()
      ensures emitted == old(emitted) + (if Accepts(event, fate) then [event.data] else [])
    {
      fate := None;
      match event {
        case Readies => PluginReady();
        case Emits(data) =>
          if direct.None? {
            var f := Emit(data);
            fate := Some(f);
          }
        case SendsDirect => if direct.Some? { SendDirect(); }
        case Activates => var begun := Activate();
        case FlushTurns => if flusher.Looking? { FlushTurn(); }
        case SendsHeld => if flusher.Holding? { SendHeld(); }
        case Completes => if direct.None? { var ok := Complete(); }
        case AnnouncesDone => if drainer.Draining? { AnnounceDone(); }
        case MarksDone => if drainer.Announced? { MarkDone(); }
        case Breaks => Interrupt();
        case Fails => Fail();
      }
    }

    /** In an uninterrupted epoch nothing is lost, doubled or reordered; peer_done goes out at most once,
        and when it has gone out everything the plugin emitted went before it. */
    lemma NothingLost()
      requires Valid()
      ensures Live() ==> wire + InFlight() + pending == emitted && wire <= emitted
      ensures |dones| <= 1
      ensures Live() && dones != [] ==> wire == emitted && dones[0] == |emitted|
    {
      if Live() {
        assert wire + InFlight() + pending == wire + (InFlight() + pending);
      }
    }
  }

  // ----- whatever happens -----

  /** The chunks that the plugin emitted and the epoch accepted, in order. */
  function Accepted(events: seq<Event>, fates: seq<Option<Fate>>): seq<Chunk>
    requires |fates| == |events|
  {
    if |events| == 0 then []
    else
      var n := |events| - 1;
      Accepted(events[..n], fates[..n])
      + (if Accepts(events[n], fates[n]) then [events[n].data] else [])
  }

  lemma AcceptedMore(events: seq<Event>, fates: seq<Option<Fate>>, e: Event, f: Option<Fate>)
    requires |fates| == |events|
    ensures Accepted(events + [e], fates + [f]) ==
      Accepted(events, fates) + (if Accepts(e, f) then [e.data] else [])
  {
    assert (events + [e])[..|events|] == events && (fates + [f])[..|fates|] == fates;
  }

  /** Any sequence of events from a new epoch on; one that cannot happen is passed over. As long as the epoch is
      neither interrupted nor closed, what went out, is in flight and waits is exactly what was accepted, in order;
      peer_done goes out at most once, and then everything has gone out before it. */
  method Play(events: seq<Event>)
    returns (fates: seq<Option<Fate>>, live: bool, wire: seq<Chunk>, flying: seq<Chunk>, waiting: seq<Chunk>, dones: seq<nat>)
    ensures |fates| == |events|
    ensures live ==> wire + flying + waiting == Accepted(events, fates)
    ensures |waiting| <= INBOX_MAX && Bytes(waiting) <= INBOX_BYTES_MAX && (live ==> |flying| <= 1)
    ensures |dones| <= 1
    ensures live && dones != [] ==> wire == Accepted(events, fates) && dones == [|wire|]
  {
    var path := new DataPath();
    fates := [];
    for n := 0 to |events|
      invariant path.Valid() && |fates| == n && fresh(path)
      invariant path.emitted == Accepted(events[..n], fates)
    {
      var fate := path.Happen(events[n]);
      assert events[..n + 1] == events[..n] + [events[n]];
      AcceptedMore(events[..n], fates, events[n], fate);
      fates := fates + [fate];
    }
    assert events[..|events|] == events;
    path.NothingLost();
    live, wire, flying, waiting, dones := path.Live(), path.wire, path.InFlight(), path.pending, path.dones;
  }
}
