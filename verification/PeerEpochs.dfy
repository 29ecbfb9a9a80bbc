/** Epochs and rounds as tokens of authority. A callback captured the epoch or the round it was made for;
    whether it may still act is decided by the identity of that object and by nothing else. Each method
    is one section under the session mutex. */
module PeerEpochs {
  class Plugin {
    constructor () {}
  }

  class Epoch {
    const generation: nat
    const roundId: string
    const started: bool
    var plugin: Plugin?
    var ready: bool
    var signaling: bool
    var interrupted: bool
    var localComplete: bool
    var queuedOffer: string
    var round: Round?

    constructor (generation: nat, roundId: string, started: bool)
      ensures this.generation == generation && this.roundId == roundId && this.started == started
      ensures plugin == null && !ready && !signaling && !interrupted && !localComplete && queuedOffer == "" && round == null
    {
      this.generation, this.roundId, this.started := generation, roundId, started;
      plugin, ready, signaling, interrupted, localComplete, queuedOffer, round := null, false, false, false, false, "", null;
    }
  }

  class Round {
    const epoch: Epoch
    var open: bool
    var started: bool
    var answer: string
    var interruptSent: bool
    var localDoneSent: bool
    var remoteDone: bool

    constructor (epoch: Epoch)
      ensures this.epoch == epoch && !open && !started && answer == "" && !interruptSent && !localDoneSent && !remoteDone
    {
      this.epoch := epoch;
      open, started, answer, interruptSent, localDoneSent, remoteDone := false, false, "", false, false, false;
    }
  }

  /** A callback of a plugin, a transport or a timer, with what it captured when it was made. */
  datatype Callback =
    | PluginReady(e: Epoch, plugin: Plugin) | PluginComplete(e: Epoch, plugin: Plugin) | PluginCanceled(e: Epoch, plugin: Plugin)
    | EpochFails(e: Epoch) | Connected(e: Epoch)
    | RoundFails(r: Round) | Opens(r: Round) | Answers(r: Round, sdp: string) | Interrupted(r: Round) | Broken(r: Round)
  {
    predicate OfRound() {
      RoundFails? || Opens? || Answers? || Interrupted? || Broken?
    }

    function Captured(): Epoch {
      if OfRound() then r.epoch else e
    }

    function Rounds(): set<Round> {
      if OfRound() then {r} else {}
    }
  }

  /** A section of the session, with what its caller hands in. */
  datatype Event =
    | Starts(roundId: string)
    | Owns(e: Epoch, plugin: Plugin)
    | Calls(callback: Callback)
    | BeginsNextRound(roundId: string, no: nat, side: string, signal: string)
    | Closes(sendCancel: bool)
    | Detaches
  {
    function Captured(): set<Epoch> {
      match this
      case Owns(e, _) => {e}
      case Calls(callback) => {callback.Captured()}
      case _ => {}
    }

    function Rounds(): set<Round> {
      if Calls? then callback.Rounds() else {}
    }
  }

  ghost predicate Named(used: map<string, nat>, k: nat) {
    exists id :: id in used && used[id] == k
  }

  /** Round ids stand for the numbers 1..n, one to one. */
  ghost predicate OneToOne(used: map<string, nat>, n: nat) {
    && (forall id :: id in used ==> 1 <= used[id] <= n)
    && (forall a, b :: a in used && b in used && used[a] == used[b] ==> a == b)
    && (forall k :: 1 <= k <= n ==> Named(used, k))
  }

  /** There are as many used ids as rounds. */
  lemma {:induction false} UsedCount(used: map<string, nat>, n: nat)
    requires OneToOne(used, n)
    ensures |used| == n
  {
    if n == 0 {
      assert used.Keys == {};
    } else {
      assert Named(used, n);
      var id :| id in used && used[id] == n;
      var rest := used - {id};
      forall k | 1 <= k <= n - 1 ensures Named(rest, k) {
        assert Named(used, k);
        var j :| j in used && used[j] == k;
        assert j in rest && rest[j] == k;
      }
      UsedCount(rest, n - 1);
      assert used.Keys == rest.Keys + {id};
    }
  }

  lemma NextIsOneToOne(used: map<string, nat>, n: nat, id: string)
    requires OneToOne(used, n) && id !in used
    ensures OneToOne(used[id := n + 1], n + 1)
  {
    var more := used[id := n + 1];
    forall k | 1 <= k <= n + 1 ensures Named(more, k) {
      if k == n + 1 {
        assert id in more && more[id] == k;
      } else {
        assert Named(used, k);
        var j :| j in used && used[j] == k;
        assert j in more && more[j] == k;
      }
    }
  }

  class Session {
    const role: string
    const signalRole: string
    var closed: bool
    var claimed: bool
    var claimedCancel: bool
    var epoch: Epoch?
    var retiring: Epoch?
    var nextGeneration: nat
    var roundNo: nat
    var usedRounds: map<string, nat>
    /** every epoch that was ever started, oldest first */
    ghost var born: seq<Epoch>

    ghost predicate Valid()
      reads this
    {
      && 1 <= roundNo <= 4 && OneToOne(usedRounds, roundNo)
      && nextGeneration == |born| && (forall i :: 0 <= i < |born| ==> born[i].generation == i + 1 && born[i].started)
      && (epoch != null && epoch.started ==> |born| > 0 && epoch == born[|born| - 1])
      && (epoch != null ==> epoch.roundId in usedRounds && usedRounds[epoch.roundId] == roundNo)
      && (claimed ==> closed)
    }

    predicate Current(e: Epoch)
      reads this
    {
      !closed && epoch == e
    }

    predicate CurrentRound(r: Round)
      reads this, r.epoch
    {
      Current(r.epoch) && r.epoch.round == r
    }

    constructor (role: string, signalRole: string, roundId: string)
      ensures Valid() && !closed && roundNo == 1 && fresh(epoch) && usedRounds == map[roundId := 1] && retiring == null
    {
      this.role, this.signalRole := role, signalRole;
      closed, claimed, claimedCancel, retiring, nextGeneration, roundNo := false, false, false, null, 0, 1;
      usedRounds, born := map[roundId := 1], [];
      epoch := new Epoch(0, roundId, false);
      new;
      assert usedRounds[roundId] == 1;
    }

    /** startEpoch: a started epoch takes the place of a placeholder. */
    method StartEpoch(roundId: string) returns (e: Epoch?)
      requires Valid() && roundId in usedRounds && usedRounds[roundId] == roundNo
      modifies this
      ensures Valid() && usedRounds == old(usedRounds) && roundNo == old(roundNo) && closed == old(closed) && retiring == old(retiring)
      ensures e == null <==> old(closed || (epoch != null && epoch.started))
      ensures e == null ==> epoch == old(epoch) && born == old(born)
      ensures e != null ==> fresh(e) && epoch == e && born == old(born) + [e] && forall f :: f in old(born) ==> f.generation < e.generation
    {
      if closed || (epoch != null && epoch.started) { return null; }
      nextGeneration := nextGeneration + 1;
      e := new Epoch(nextGeneration, roundId, true);
      epoch, born := e, born + [e];
      assert forall f :: f in old(born) ==> exists i :: 0 <= i < |old(born)| && old(born)[i] == f;
    }

    /** The plugin becomes the epoch's, unless the epoch was replaced while it started. */
    method OwnPlugin(e: Epoch, plugin: Plugin) returns (owned: bool)
      requires Valid()
      modifies e`plugin
      ensures Valid() && owned == Current(e)
      ensures if owned then e.plugin == plugin else e.plugin == old(e.plugin)
    {
      owned := !closed && epoch == e;
      if owned { e.plugin := plugin; }
    }

    predicate Acts(e: Epoch, plugin: Plugin)
      reads this, e
    {
      Current(e) && e.plugin == plugin
    }

    /** A ready status; the answer says whether an offer may now be made or taken. */
    method StatusReady(e: Epoch, plugin: Plugin) returns (duplicate: bool, offer: string)
      requires Valid()
      modifies this, e
      ensures Valid() && epoch == old(epoch)
      ensures old(!Acts(e, plugin) || e.interrupted) ==> unchanged(this) && unchanged(e) && !duplicate && offer == ""
      ensures old(Acts(e, plugin) && !e.interrupted && !e.ready) ==>
        e.ready && e.queuedOffer == "" && offer == old(e.queuedOffer) && !duplicate && unchanged(this)
        && e.plugin == old(e.plugin) && e.round == old(e.round) && e.interrupted == old(e.interrupted)
      ensures old(Acts(e, plugin) && !e.interrupted && e.ready) ==> duplicate && closed && epoch == old(epoch) && unchanged(e)
    {
      duplicate, offer := false, "";
      if closed || epoch != e || e.plugin != plugin || e.interrupted { return; }
      if e.ready {
        FailEpoch(e);
        return true, "";
      }
      offer := e.queuedOffer;
      e.ready, e.queuedOffer := true, "";
    }

    /** A complete status of the plugin. */
    method StatusComplete(e: Epoch, plugin: Plugin) returns (accepted: bool)
      requires Valid()
      modifies this, e
      ensures Valid() && epoch == old(epoch)
      ensures old(!Acts(e, plugin) || e.interrupted) ==> unchanged(this) && unchanged(e) && !accepted
      ensures accepted <==> old(Acts(e, plugin) && !e.interrupted && e.ready && !e.localComplete)
      ensures accepted ==> e.localComplete && unchanged(this) && e.round == old(e.round) && e.plugin == old(e.plugin)
      ensures old(Acts(e, plugin) && !e.interrupted && (!e.ready || e.localComplete)) ==> closed && unchanged(e)
    {
      accepted := false;
      if closed || epoch != e || e.plugin != plugin || e.interrupted { return; }
      if !e.ready || e.localComplete {
        FailEpoch(e);
        return;
      }
      e.localComplete := true;
      return true;
    }

    /** A canceled status claims the whole session for a graceful close while its epoch is current. */
    method StatusCanceled(e: Epoch, plugin: Plugin) returns (claims: bool)
      requires Valid()
      modifies this
      ensures Valid() && claims == old(Acts(e, plugin) && !e.interrupted)
      ensures !claims ==> unchanged(this)
      ensures claims ==> closed && claimed && claimedCancel == (old(!claimed) || old(claimedCancel)) && epoch == old(epoch)
    {
      claims := !closed && epoch == e && e.plugin == plugin && !e.interrupted;
      if claims { Claim(true); }
    }

    /** claimPluginPeerCloseLocked: the first claim decides how plugins are stopped. */
    method Claim(sendCancel: bool)
      modifies `closed, `claimed, `claimedCancel
      ensures closed && claimed
      ensures claimedCancel == if old(claimed) then old(claimedCancel) else sendCancel
    {
      closed := true;
      if !claimed { claimed, claimedCancel := true, sendCancel; }
    }

    /** failEpoch: a stale failure does nothing. */
    method FailEpoch(e: Epoch)
      requires Valid()
      modifies `closed, `claimed, `claimedCancel
      ensures Valid()
      ensures if old(Current(e)) then closed && claimed else unchanged(this)
    {
      if closed || epoch != e { return; }
      Claim(false);
    }

    method FailRound(r: Round)
      requires Valid()
      modifies `closed, `claimed, `claimedCancel
      ensures Valid()
      ensures if old(CurrentRound(r)) then closed && claimed else unchanged(this)
    {
      if closed || epoch != r.epoch || r.epoch.round != r { return; }
      FailEpoch(r.epoch);
    }

    method ReserveRound(e: Epoch) returns (r: Round?)
      requires Valid()
      modifies e`round
      ensures Valid() && (r != null <==> old(Current(e) && e.ready && e.round == null))
      ensures r == null ==> e.round == old(e.round)
      ensures r != null ==> fresh(r) && r.epoch == e && e.round == r && CurrentRound(r)
    {
      if closed || epoch != e || !e.ready || e.round != null { return null; }
      r := new Round(e);
      e.round := r;
    }

    /** The channel of a round opens; a channel of an old round does not. */
    method ChannelOpen(r: Round)
      requires Valid()
      modifies r`open
      ensures Valid() && r.open == (old(r.open) || CurrentRound(r))
    {
      if !closed && epoch == r.epoch && r.epoch.round == r { r.open := true; }
    }

    /** A late answer must not reach the next round. */
    method TakeAnswer(r: Round, sdp: string)
      requires Valid()
      modifies r`answer
      ensures Valid() && r.answer == if CurrentRound(r) then sdp else old(r.answer)
    {
      if !closed && epoch == r.epoch && r.epoch.round == r { r.answer := sdp; }
    }

    /** interruptRound: once per round; the plugin stays with its epoch. */
    method Interrupt(r: Round) returns (sent: bool)
      requires Valid()
      modifies r`interruptSent, r.epoch`interrupted, r.epoch`round
      ensures Valid() && sent == old(CurrentRound(r) && !r.interruptSent)
      ensures !sent ==> unchanged(r) && unchanged(r.epoch)
      ensures sent ==> r.interruptSent && r.epoch.interrupted && r.epoch.round == null && r.epoch.plugin == old(r.epoch.plugin) && !CurrentRound(r)
    {
      if closed || epoch != r.epoch || r.epoch.round != r || r.interruptSent { return false; }
      r.interruptSent := true;
      r.epoch.interrupted, r.epoch.round := true, null;
      return true;
    }

    /** A transport failure interrupts a round that has carried DATA and fails one that has not; a finished
        or an old round it leaves alone. */
    method ChannelFailure(r: Round)
      requires Valid()
      modifies this, r, r.epoch
      ensures Valid() && epoch == old(epoch) && (old(closed) ==> closed)
      ensures old(!CurrentRound(r) || (r.localDoneSent && r.remoteDone)) ==> unchanged(this) && unchanged(r) && unchanged(r.epoch)
      ensures old(CurrentRound(r) && !(r.localDoneSent && r.remoteDone) && r.started && !r.interruptSent) ==>
        r.epoch.interrupted && r.epoch.round == null && unchanged(this)
      ensures old(CurrentRound(r) && !(r.localDoneSent && r.remoteDone) && !r.started) ==> closed && unchanged(r) && unchanged(r.epoch)
    {
      if closed || epoch != r.epoch || r.epoch.round != r || (r.localDoneSent && r.remoteDone) { return; }
      if r.started { var _ := Interrupt(r); } else { FailRound(r); }
    }

    /** beginNextRound, first section: a placeholder for the next round, with the interrupted epoch retiring. */
    method BeginNextRound(roundId: string, no: nat, side: string, signal: string) returns (ok: bool, prior: Epoch?)
      requires Valid()
      modifies this
      ensures Valid() && born == old(born) && closed == old(closed)
      ensures roundId in old(usedRounds) ==>
        unchanged(this) && prior == null && ok == (usedRounds[roundId] == no && side == role && signal == signalRole)
      ensures prior != null <==>
        old(roundId !in usedRounds && !closed && epoch != null && epoch.interrupted) && no == old(roundNo) + 1 <= 4 && side == role && signal == signalRole
      ensures prior == null ==> unchanged(this)
      ensures prior != null ==>
        ok && prior == old(epoch) == retiring && epoch != null && fresh(epoch) && !epoch.started && !Current(prior)
        && roundNo == no && usedRounds == old(usedRounds)[roundId := no]
    {
      prior := null;
      if roundId in usedRounds {
        return usedRounds[roundId] == no && side == role && signal == signalRole, null;
      }
      if closed || epoch == null || !epoch.interrupted || no != roundNo + 1 || no > 4 || side != role || signal != signalRole {
        return false, null;
      }
      NextIsOneToOne(usedRounds, roundNo, roundId);
      prior := epoch;
      epoch := new Epoch(0, roundId, false);
      retiring, roundNo, usedRounds := prior, no, usedRounds[roundId := no];
      ok := true;
    }

    /** closeOnce, first section: the session lets go of its epochs, and no callback has authority any more. */
    method Detach()
      requires Valid() && claimed
      modifies `epoch, `retiring
      ensures Valid() && epoch == null && retiring == null && forall e :: !Current(e)
    {
      epoch, retiring := null, null;
    }

    // ----- late callbacks -----

    /** What the callback captured has lost its place. */
    predicate Stale(c: Callback)
      reads this, c.Captured()
    {
      match c
      case PluginReady(e, plugin) => !Acts(e, plugin) || e.interrupted
      case PluginComplete(e, plugin) => !Acts(e, plugin) || e.interrupted
      case PluginCanceled(e, plugin) => !Acts(e, plugin) || e.interrupted
      case EpochFails(e) => !Current(e)
      case Connected(e) => !Current(e)
      case RoundFails(r) => !CurrentRound(r)
      case Opens(r) => !CurrentRound(r)
      case Answers(r, _) => !CurrentRound(r)
      case Interrupted(r) => !CurrentRound(r)
      case Broken(r) => !CurrentRound(r)
    }

    method CallOfEpoch(c: Callback)
      requires Valid() && !c.OfRound()
      modifies this, c.e
      ensures Valid() && epoch == old(epoch) && (old(closed) ==> closed)
      ensures old(Stale(c)) ==> unchanged(this) && unchanged(c.e)
    {
      match c {
        case PluginReady(e, plugin) => var duplicate, offer := StatusReady(e, plugin);
        case PluginComplete(e, plugin) => var accepted := StatusComplete(e, plugin);
        case PluginCanceled(e, plugin) => var claims := StatusCanceled(e, plugin);
        case EpochFails(e) => FailEpoch(e);
        case Connected(e) => var r := ReserveRound(e);
      }
    }

    method CallOfRound(c: Callback)
      requires Valid() && c.OfRound()
      modifies this, c.r.epoch, c.r
      ensures Valid() && epoch == old(epoch) && (old(closed) ==> closed)
      ensures old(Stale(c)) ==> unchanged(this) && unchanged(c.r.epoch) && unchanged(c.r)
    {
      match c {
        case RoundFails(r) => FailRound(r);
        case Opens(r) => ChannelOpen(r);
        case Answers(r, sdp) => TakeAnswer(r, sdp);
        case Interrupted(r) => var sent := Interrupt(r);
        case Broken(r) => ChannelFailure(r);
      }
    }

    method Call(c: Callback)
      requires Valid()
      modifies this, c.Captured(), c.Rounds()
      ensures Valid() && epoch == old(epoch) && (old(closed) ==> closed)
      ensures old(Stale(c)) ==> unchanged(this) && unchanged(c.Captured()) && unchanged(c.Rounds())
    {
      if c.OfRound() { CallOfRound(c); } else { CallOfEpoch(c); }
    }

    /** However many late callbacks come, of whatever kinds and in whatever order, the session, its epochs, their
        plugins and their rounds stay as they are. */
    method CallLate(cs: seq<Callback>)
      requires Valid() && forall c :: c in cs ==> Stale(c)
      modifies this, set c | c in cs :: c.Captured(), set c, r | c in cs && r in c.Rounds() :: r
      ensures Valid() && unchanged(this)
      ensures forall c :: c in cs ==> unchanged(c.Captured()) && unchanged(c.Rounds()) && Stale(c)
    {
      for i := 0 to |cs|
        invariant Valid() && unchanged(this)
        invariant forall c :: c in cs ==> unchanged(c.Captured()) && unchanged(c.Rounds()) && Stale(c)
      {
        assert cs[i] in cs;
        Call(cs[i]);
      }
    }

    // ----- the whole life of a session -----

    /** Whatever happens, an epoch that has lost its place neither gets it back nor changes. */
    method Happen(event: Event, ghost past: Epoch)
      requires Valid() && !Current(past)
      modifies this, event.Captured(), event.Rounds()
      ensures Valid() && !Current(past) && unchanged(past)
    {
      match event {
        case Starts(roundId) =>
          if roundId in usedRounds && usedRounds[roundId] == roundNo { var e := StartEpoch(roundId); }
        case Owns(e, plugin) => var owned := OwnPlugin(e, plugin);
        case Calls(callback) => Call(callback);
        case BeginsNextRound(roundId, no, side, signal) => var ok, prior := BeginNextRound(roundId, no, side, signal);
        case Closes(sendCancel) => Claim(sendCancel);
        case Detaches => if claimed { Detach(); }
      }
    }

    /** Over any sequence of methods, with callbacks of any epoch among them: an epoch that was replaced, or whose
        session was closed, never becomes current again, and stays as it was. */
    method Play(events: seq<Event>, ghost past: Epoch)
      requires Valid() && !Current(past)
      modifies this, set x, e | x in events && e in x.Captured() :: e, set x, r | x in events && r in x.Rounds() :: r
      ensures Valid() && !Current(past) && unchanged(past)
    {
      for i := 0 to |events|
        invariant Valid() && !Current(past) && unchanged(past)
      {
        assert events[i] in events;
        Happen(events[i], past);
      }
    }
  }
}
