/** The binding handshake of one round between two honest endpoints over an ordered, reliable channel:
    tickets and channel-open callbacks in any order, and in each endpoint the three goroutines that may
    send (the open callback, the ticket handler and the round reader). */
module PeerHandshake {
  import opened Prelude

  type Nonce = string

  /** SHA-256 as an injective token. */
  datatype Digest = Digest(of: Nonce)

  datatype Nonces = Nonces(session: Nonce, round: Nonce)

  const CONTROL_MAX := 65536
  const DATA_MAX := 32768
  const INBOX_MAX := 128
  const INBOX_BYTES_MAX := 2097152

  type ControlSize = n: nat | n <= CONTROL_MAX
  type DataSize = n: nat | n <= DATA_MAX

  /** Messages with their length on the wire. */
  datatype Msg = Bindings(nonces: Nonces, control: ControlSize) | ReadyMsg(control: ControlSize) | Data(data: DataSize) | DoneMsg(control: ControlSize)
  {
    function Size(): nat {
      if Data? then data else control
    }
  }

  datatype Mark = Open | Ticket | BindingSent | BindingOK | ReadySent | RemoteReady | DataOpen | DoneSent | RemoteDone | Rejected

  datatype Thread = Opener | Ticketer | Reader

  /** What a goroutine still has to do once its current attempt is over. */
  datatype Then = Stop | AgainReady | Activate

  /** maybeSendBindings, maybeSendPeerReady and activateRound call each other in this order when they
      succeed. Between the SendText of a message and its flag the goroutine holds the send mutex only. */
  datatype Pc =
    | Idle
    | TryBindings(next: Then) | MarkBindings(next: Then)
    | TryReady(next: Then) | MarkReady(next: Then)
    | TryActivate(next: Then)

  /** `queue` is what the other has sent and this endpoint has not read. The first `arrived` of it are in the
      endpoint's inbox, the rest is still in the channel. */
  datatype Peer = Peer(
    own: Nonces, ticketHashes: (Digest, Digest), marks: set<Mark>, pending: Option<Nonces>, accepted: Option<Nonces>,
    sending: Option<Thread>, opener: Pc, ticketer: Pc, reader: Pc, queue: seq<Msg>, arrived: nat)
  {
    function At(t: Thread): Pc {
      match t case Opener => opener case Ticketer => ticketer case Reader => reader
    }

    function Goto(t: Thread, pc: Pc): Peer {
      match t
      case Opener => this.(opener := pc)
      case Ticketer => this.(ticketer := pc)
      case Reader => this.(reader := pc)
    }

    function Marked(m: Mark): Peer {
      this.(marks := marks + {m})
    }
  }

  function Continue(next: Then): Pc {
    match next case Stop => Idle case AgainReady => TryReady(Stop) case Activate => TryActivate(Stop)
  }

  predicate CanBind(p: Peer) {
    Ticket in p.marks && Open in p.marks && BindingSent !in p.marks
  }

  predicate CanReady(p: Peer) {
    Ticket in p.marks && BindingOK in p.marks && BindingSent in p.marks && Open in p.marks && ReadySent !in p.marks
  }

  predicate CanActivate(p: Peer) {
    Ticket in p.marks && BindingOK in p.marks && ReadySent in p.marks && RemoteReady in p.marks && DataOpen !in p.marks
  }

  /** A goroutine takes its next step; a message may go out. The two attempts to send wait for the mutex. */
  function ThreadStep(p: Peer, t: Thread, size: ControlSize): (Peer, Option<Msg>) {
    match p.At(t)
    case Idle => (p, None)
    case TryBindings(next) =>
      if p.sending.Some? then (p, None)
      else if CanBind(p) then (p.Goto(t, MarkBindings(next)).(sending := Some(t)), Some(Bindings(p.own, size)))
      else (p.Goto(t, Continue(next)), None)
    case MarkBindings(next) => (p.Goto(t, TryReady(next)).(sending := None).Marked(BindingSent), None)
    case TryReady(next) =>
      if p.sending.Some? then (p, None)
      else if CanReady(p) then (p.Goto(t, MarkReady(next)).(sending := Some(t)), Some(ReadyMsg(size)))
      else (p.Goto(t, Continue(next)), None)
    case MarkReady(next) => (p.Goto(t, TryActivate(next)).(sending := None).Marked(ReadySent), None)
    case TryActivate(next) => ((if CanActivate(p) then p.Marked(DataOpen) else p).Goto(t, Continue(next)), None)
  }

  predicate HashesMatch(p: Peer, n: Nonces) {
    Digest(n.session) == p.ticketHashes.0 && Digest(n.round) == p.ticketHashes.1
  }

  /** acceptPeerBindingsLocked; None is its error. */
  function Accept(p: Peer, n: Nonces): Option<Peer> {
    if BindingOK in p.marks then None
    else if Ticket !in p.marks then
      if p.pending.Some? && p.pending.value != n then None else Some(p.(pending := Some(n)))
    else if !HashesMatch(p, n) then None
    else Some(p.(pending := None, accepted := Some(n)).Marked(BindingOK))
  }

  function Opened(p: Peer): Peer {
    if Open in p.marks then p else p.Marked(Open).(opener := TryBindings(Stop))
  }

  /** The Hub's ticket arrives and verifies; bindings that came early are now judged. */
  function Ticketed(p: Peer): Peer {
    if Ticket in p.marks then p
    else
      var q := p.Marked(Ticket);
      match q.pending
      case None => q.(ticketer := TryBindings(AgainReady))
      case Some(n) =>
        match Accept(q, n)
        case None => q.Marked(Rejected)
        case Some(r) => r.(ticketer := TryBindings(AgainReady))
  }

  /** The reader handles the next message; None is a protocol error. */
  function Handle(p: Peer, m: Msg): Option<Peer> {
    match m
    case Bindings(n, _) => (match Accept(p, n) case None => None case Some(q) => Some(q.(reader := TryReady(Stop))))
    case ReadyMsg(_) =>
      if Ticket !in p.marks || BindingOK !in p.marks || BindingSent !in p.marks then None
      else Some(p.Marked(RemoteReady).(reader := TryReady(Activate)))
    case Data(_) => if DataOpen in p.marks && RemoteDone !in p.marks then Some(p) else None
    case DoneMsg(_) => if DataOpen in p.marks then Some(p.Marked(RemoteDone)) else None
  }

  predicate CanRead(p: Peer) {
    p.reader.Idle? && 0 < p.arrived <= |p.queue|
  }

  function Read(p: Peer): Peer
    requires CanRead(p)
  {
    match Handle(p, p.queue[0])
    case None => p.Marked(Rejected)
    case Some(q) => q.(queue := p.queue[1..], arrived := p.arrived - 1)
  }

  function Bytes(q: seq<Msg>): nat {
    if q == [] then 0 else Bytes(q[..|q| - 1]) + q[|q| - 1].Size()
  }

  /** The next message does not fit the inbox any more. */
  predicate Overflow(p: Peer) {
    && p.arrived < |p.queue|
    && (p.arrived >= INBOX_MAX || Bytes(p.queue[..p.arrived]) + p.queue[p.arrived].Size() > INBOX_BYTES_MAX)
  }

  /** dataChannelMessage: the channel delivers the next message. */
  function Arrive(p: Peer): Peer {
    if p.arrived >= |p.queue| then p
    else if Overflow(p) then p.Marked(Rejected)
    else p.(arrived := p.arrived + 1)
  }

  function Receive(p: Peer, m: Option<Msg>): Peer {
    if m.None? then p else p.(queue := p.queue + [m.value])
  }

  datatype Pair = Pair(left: Peer, right: Peer) {
    function Of(l: bool): Peer { if l then left else right }
    function With(l: bool, p: Peer): Pair { if l then Pair(p, right) else Pair(left, p) }
  }

  datatype Action =
    | OnOpen(l: bool) | OnTicket(l: bool) | Move(l: bool, t: Thread, control: ControlSize) | OnArrive(l: bool) | OnRead(l: bool)
    | SendData(l: bool, data: DataSize) | SendDone(l: bool, control: ControlSize)

  predicate MayStream(p: Peer) {
    DataOpen in p.marks && DoneSent !in p.marks && p.sending.None?
  }

  /** One step of one endpoint; a message it sends is in the channel at once. */
  function LocalStep(p: Peer, a: Action): (Peer, Option<Msg>) {
    if Rejected in p.marks then (p, None)
    else
      match a
      case OnOpen(_) => (Opened(p), None)
      case OnTicket(_) => (Ticketed(p), None)
      case Move(_, t, size) => ThreadStep(p, t, size)
      case OnArrive(_) => (Arrive(p), None)
      case OnRead(_) => (if CanRead(p) then Read(p) else p, None)
      case SendData(_, size) => (p, if MayStream(p) then Some(Data(size)) else None)
      case SendDone(_, size) => if MayStream(p) then (p.Marked(DoneSent), Some(DoneMsg(size))) else (p, None)
  }

  function Step(s: Pair, a: Action): Pair {
    var o := LocalStep(s.Of(a.l), a);
    s.With(a.l, o.0).With(!a.l, Receive(s.Of(!a.l), o.1))
  }

  function Fresh(own: Nonces, other: Nonces): Peer {
    Peer(own, (Digest(other.session), Digest(other.round)), {}, None, None, None, Idle, Idle, Idle, [], 0)
  }

  datatype Run = Begin(left: Nonces, right: Nonces) | Next(before: Run, action: Action)

  function Reach(r: Run): Pair {
    match r
    case Begin(left, right) => Pair(Fresh(left, right), Fresh(right, left))
    case Next(before, action) => Step(Reach(before), action)
  }

  // ----- one endpoint -----

  predicate Marking(pc: Pc) {
    pc.MarkBindings? || pc.MarkReady?
  }

  /** The mutex belongs to the one goroutine that is between a send and its flag. */
  predicate SendOk(p: Peer) {
    && (Marking(p.opener) <==> p.sending == Some(Opener))
    && (Marking(p.ticketer) <==> p.sending == Some(Ticketer))
    && (Marking(p.reader) <==> p.sending == Some(Reader))
  }

  predicate PcOk(p: Peer, pc: Pc) {
    && (pc.MarkBindings? ==> CanBind(p))
    && (pc.MarkReady? ==> CanReady(p))
  }

  predicate Binding(p: Peer) {
    p.opener.MarkBindings? || p.ticketer.MarkBindings? || p.reader.MarkBindings?
  }

  predicate Readying(p: Peer) {
    p.opener.MarkReady? || p.ticketer.MarkReady? || p.reader.MarkReady?
  }

  /** The bindings have been sent, flagged or not. */
  predicate SentBindings(p: Peer) {
    BindingSent in p.marks || Binding(p)
  }

  predicate SentReady(p: Peer) {
    ReadySent in p.marks || Readying(p)
  }

  predicate MarksOk(p: Peer) {
    && (BindingSent in p.marks ==> Ticket in p.marks && Open in p.marks)
    && (ReadySent in p.marks ==> BindingSent in p.marks && BindingOK in p.marks)
    && (BindingOK in p.marks <==> p.accepted.Some?)
    && (BindingOK in p.marks ==> Ticket in p.marks && p.pending.None? && HashesMatch(p, p.accepted.value))
    && (Ticket in p.marks ==> p.pending.None?)
    && (RemoteReady in p.marks ==> BindingSent in p.marks && BindingOK in p.marks)
    && (DataOpen in p.marks ==> ReadySent in p.marks && RemoteReady in p.marks)
    && (DoneSent in p.marks ==> DataOpen in p.marks)
  }

  predicate WillBind(pc: Pc) {
    pc.TryBindings? || pc.MarkBindings?
  }

  /** The goroutine will still try to send ready: it is about to, or comes back to it. */
  predicate WillReady(pc: Pc) {
    pc.TryReady? || pc.MarkReady? || pc.MarkBindings? || (!pc.Idle? && pc.next.AgainReady?)
  }

  predicate WillActivate(pc: Pc) {
    pc.TryActivate? || (!pc.Idle? && pc.next.Activate?)
  }

  /** Whatever can be done will be tried by some goroutine. */
  predicate Pending(p: Peer) {
    && (CanBind(p) ==> WillBind(p.opener) || WillBind(p.ticketer) || WillBind(p.reader))
    && (CanReady(p) ==> WillReady(p.opener) || WillReady(p.ticketer) || WillReady(p.reader))
    && (RemoteReady in p.marks && DataOpen !in p.marks ==> WillActivate(p.reader))
  }

  /** The reader comes to activation only with ready sent, and only the ticket handler comes back to ready. */
  predicate ReaderOk(p: Peer) {
    && !p.reader.TryBindings? && !p.reader.MarkBindings? && (p.reader.Idle? || !p.reader.next.AgainReady?)
    && (p.reader.TryActivate? ==> ReadySent in p.marks)
    && (!p.reader.Idle? && p.reader.next.Activate? ==> RemoteReady in p.marks)
    && (Open !in p.marks ==> p.opener.Idle?) && (Ticket !in p.marks ==> p.ticketer.Idle?)
  }

  predicate LocalOk(p: Peer) {
    SendOk(p) && PcOk(p, p.opener) && PcOk(p, p.ticketer) && PcOk(p, p.reader) && MarksOk(p) && Pending(p) && ReaderOk(p)
    && p.arrived <= |p.queue|
  }

  lemma OpenerLocal(p: Peer, size: ControlSize)
    requires LocalOk(p)
    ensures LocalOk(ThreadStep(p, Opener, size).0)
  {
    match p.opener
    case TryBindings(_) => if p.sending.Some? {} else if CanBind(p) {} else {}
    case TryReady(_) => if p.sending.Some? {} else if CanReady(p) {} else {}
    case _ =>
  }

  lemma TicketerLocal(p: Peer, size: ControlSize)
    requires LocalOk(p)
    ensures LocalOk(ThreadStep(p, Ticketer, size).0)
  {
    match p.ticketer
    case TryBindings(_) => if p.sending.Some? {} else if CanBind(p) {} else {}
    case TryReady(_) => if p.sending.Some? {} else if CanReady(p) {} else {}
    case _ =>
  }

  lemma ReaderLocal(p: Peer, size: ControlSize)
    requires LocalOk(p)
    ensures LocalOk(ThreadStep(p, Reader, size).0)
  {
    match p.reader
    case TryBindings(_) => if p.sending.Some? {} else if CanBind(p) {} else {}
    case TryReady(_) => if p.sending.Some? {} else if CanReady(p) {} else {}
    case _ =>
  }

  lemma BindingsLocal(p: Peer)
    requires LocalOk(p) && CanRead(p) && p.queue[0].Bindings?
    ensures LocalOk(Read(p))
  {
  }

  lemma ReadLocal(p: Peer)
    requires LocalOk(p) && CanRead(p)
    ensures LocalOk(Read(p))
  {
    match p.queue[0]
    case Bindings(_, _) => BindingsLocal(p);
    case ReadyMsg(_) =>
    case Data(_) =>
    case DoneMsg(_) =>
  }

  lemma CallbackLocal(p: Peer)
    requires LocalOk(p)
    ensures LocalOk(Opened(p))
    ensures Rejected !in Ticketed(p).marks ==> LocalOk(Ticketed(p))
  {
  }

  // ----- the channel from x to y -----

  function Rank(m: Msg): nat {
    match m case Bindings(_, _) => 0 case ReadyMsg(_) => 1 case Data(_) => 2 case DoneMsg(_) => 3
  }

  /** In order, and bindings and ready at most once. */
  predicate Ordered(q: seq<Msg>) {
    forall i, j :: 0 <= i < j < |q| ==> Rank(q[i]) <= Rank(q[j]) && (Rank(q[i]) == Rank(q[j]) ==> Rank(q[i]) >= 2)
  }

  predicate Holds(q: seq<Msg>, rank: nat) {
    exists i :: 0 <= i < |q| && Rank(q[i]) == rank
  }

  predicate GotBindings(y: Peer) {
    y.pending.Some? || BindingOK in y.marks
  }

  predicate LinkOk(x: Peer, y: Peer) {
    && Ordered(y.queue)
    && (SentBindings(x) <==> Holds(y.queue, 0) || GotBindings(y))
    && (SentReady(x) <==> Holds(y.queue, 1) || RemoteReady in y.marks)
    && !(Holds(y.queue, 0) && GotBindings(y))
    && !(Holds(y.queue, 1) && RemoteReady in y.marks)
    && (Holds(y.queue, 2) || Holds(y.queue, 3) ==> DataOpen in x.marks)
    && (Holds(y.queue, 3) || RemoteDone in y.marks ==> DoneSent in x.marks)
    && (RemoteDone in y.marks ==> y.queue == [])
    && (forall i :: 0 <= i < |y.queue| && y.queue[i].DoneMsg? ==> i + 1 == |y.queue|)
    && (forall i :: 0 <= i < |y.queue| && y.queue[i].Bindings? ==> y.queue[i].nonces == x.own)
    && (y.pending.Some? ==> y.pending.value == x.own)
    && (y.accepted.Some? ==> y.accepted.value == x.own)
    && y.ticketHashes == (Digest(x.own.session), Digest(x.own.round))
  }

  lemma HoldsAppend(q: seq<Msg>, m: Msg, rank: nat)
    ensures Holds(q + [m], rank) <==> Holds(q, rank) || Rank(m) == rank
  {
    if Holds(q, rank) {
      var i :| 0 <= i < |q| && Rank(q[i]) == rank;
      assert Rank((q + [m])[i]) == rank;
    }
    assert Rank((q + [m])[|q|]) == Rank(m);
  }

  lemma HoldsTail(q: seq<Msg>, rank: nat)
    requires |q| > 0
    ensures Holds(q, rank) <==> Holds(q[1..], rank) || Rank(q[0]) == rank
  {
    if Holds(q, rank) && Rank(q[0]) != rank {
      var i :| 0 <= i < |q| && Rank(q[i]) == rank;
      assert q[1..][i - 1] == q[i];
    }
    if Holds(q[1..], rank) {
      var i :| 0 <= i < |q[1..]| && Rank(q[1..][i]) == rank;
      assert q[i + 1] == q[1..][i];
    }
  }

  /** What a step of x may change in what its channel depends on. */
  predicate Sends(x: Peer, x1: Peer, m: Option<Msg>) {
    && x1.own == x.own && x.marks <= x1.marks
    && (match m
        case None =>
          SentBindings(x1) == SentBindings(x) && SentReady(x1) == SentReady(x) && ((DoneSent in x1.marks) == (DoneSent in x.marks))
        case Some(Bindings(n, _)) => n == x.own && !SentBindings(x) && SentBindings(x1) && !SentReady(x) && !SentReady(x1)
                                  && ((DoneSent in x1.marks) == (DoneSent in x.marks)) && DataOpen !in x.marks
        case Some(ReadyMsg(_)) => !SentReady(x) && SentReady(x1) && SentBindings(x1) && SentBindings(x)
                               && ((DoneSent in x1.marks) == (DoneSent in x.marks)) && DataOpen !in x.marks
        case Some(Data(_)) => x1 == x && DataOpen in x.marks && DoneSent !in x.marks
        case Some(DoneMsg(_)) => x1 == x.Marked(DoneSent) && DataOpen in x.marks && DoneSent !in x.marks)
  }

  lemma ThreadSends(x: Peer, t: Thread, size: ControlSize)
    requires LocalOk(x)
    ensures Sends(x, ThreadStep(x, t, size).0, ThreadStep(x, t, size).1)
  {
    match t
    case Opener =>
    case Ticketer =>
    case Reader =>
  }

  lemma ThreadReceives(x: Peer, t: Thread, size: ControlSize)
    ensures SameReceiver(x, ThreadStep(x, t, size).0)
  {
    match t
    case Opener =>
    case Ticketer =>
    case Reader =>
  }

  lemma AppendOrdered(q: seq<Msg>, m: Msg)
    requires Ordered(q) && forall rank: nat :: Holds(q, rank) && rank >= Rank(m) ==> rank == Rank(m) >= 2
    ensures Ordered(q + [m])
  {
    forall i | 0 <= i < |q| ensures Rank(q[i]) <= Rank(m) && (Rank(q[i]) == Rank(m) ==> Rank(m) >= 2) {
      assert Holds(q, Rank(q[i]));
    }
  }

  lemma LinkSends(x: Peer, x1: Peer, y: Peer, m: Option<Msg>)
    requires LinkOk(x, y) && Sends(x, x1, m) && MarksOk(x)
    ensures LinkOk(x1, Receive(y, m))
  {
    if m.Some? {
      HoldsAppend(y.queue, m.value, 0);
      HoldsAppend(y.queue, m.value, 1);
      HoldsAppend(y.queue, m.value, 2);
      HoldsAppend(y.queue, m.value, 3);
      AppendOrdered(y.queue, m.value);
    }
  }

  /** What a step of y may change in what the channel to it depends on. */
  predicate SameReceiver(y: Peer, y1: Peer) {
    && y1.queue == y.queue && y1.pending == y.pending && y1.accepted == y.accepted && y1.ticketHashes == y.ticketHashes
    && (BindingOK in y1.marks <==> BindingOK in y.marks) && (RemoteReady in y1.marks <==> RemoteReady in y.marks)
    && (RemoteDone in y1.marks <==> RemoteDone in y.marks)
  }

  lemma LinkIdle(x: Peer, y: Peer, y1: Peer)
    requires LinkOk(x, y) && SameReceiver(y, y1)
    ensures LinkOk(x, y1)
  {
  }

  /** Two endpoints that have played by the rules so far. */
  predicate Linked(x: Peer, y: Peer) {
    LocalOk(x) && LocalOk(y) && LinkOk(x, y) && LinkOk(y, x)
  }

  lemma TicketAccepts(x: Peer, y: Peer)
    requires Linked(x, y)
    ensures Rejected in Ticketed(y).marks <==> Rejected in y.marks
    ensures LinkOk(x, Ticketed(y))
  {
    if Ticket !in y.marks && y.pending.Some? {
      assert HashesMatch(y.Marked(Ticket), y.pending.value);
    }
  }

  lemma TicketLink(x: Peer, y: Peer)
    requires Linked(x, y) && Rejected !in y.marks
    ensures var y1 := Ticketed(y); Rejected !in y1.marks && LocalOk(y1) && LinkOk(x, y1)
  {
    TicketAccepts(x, y);
    CallbackLocal(y);
  }

  lemma TicketSends(x: Peer, y: Peer)
    requires Linked(x, y)
    ensures Sends(y, Ticketed(y), None)
  {
  }

  lemma OpenLink(x: Peer, y: Peer)
    requires Linked(x, y)
    ensures var y1 := Opened(y);
            (Rejected in y1.marks <==> Rejected in y.marks) && LocalOk(y1) && SameReceiver(y, y1) && Sends(y, y1, None)
  {
    CallbackLocal(y);
  }

  /** The head of the queue comes after everything of lower rank was read. */
  lemma HeadRank(q: seq<Msg>, rank: nat)
    requires Ordered(q) && |q| > 0 && rank < Rank(q[0])
    ensures !Holds(q, rank)
  {
  }

  /** Reading ready is an error exactly when the reader's own bindings have been sent but not flagged. */
  lemma ReadyHead(x: Peer, y: Peer)
    requires Linked(x, y) && CanRead(y) && y.queue[0].ReadyMsg?
    ensures Ticket in y.marks && BindingOK in y.marks && SentBindings(y) && RemoteReady !in y.marks
  {
    HeadRank(y.queue, 0);
    assert Holds(y.queue, 1);
    assert SentReady(x) && SentBindings(x) && GotBindings(y);
    assert BindingOK in x.marks;
    assert SentBindings(y);
  }

  lemma BindingsHead(x: Peer, y: Peer)
    requires Linked(x, y) && CanRead(y) && y.queue[0].Bindings?
    ensures y.queue[0].nonces == x.own && Accept(y, x.own).Some?
  {
    assert Holds(y.queue, 0);
  }

  lemma StreamHead(x: Peer, y: Peer)
    requires Linked(x, y) && CanRead(y) && (y.queue[0].Data? || y.queue[0].DoneMsg?)
    ensures DataOpen in y.marks && RemoteDone !in y.marks
  {
    HeadRank(y.queue, 1);
    assert Holds(y.queue, Rank(y.queue[0]));
    assert SentReady(x) && RemoteReady in y.marks;
  }

  predicate Race(y: Peer) {
    CanRead(y) && y.queue[0].ReadyMsg? && BindingSent !in y.marks
  }

  lemma ReadRejects(x: Peer, y: Peer)
    requires Linked(x, y) && CanRead(y)
    ensures Handle(y, y.queue[0]).None? <==> Race(y)
    ensures Race(y) ==> Binding(y)
  {
    match y.queue[0]
    case Bindings(_, _) => BindingsHead(x, y);
    case ReadyMsg(_) => ReadyHead(x, y);
    case _ => StreamHead(x, y);
  }

  lemma TailOrdered(q: seq<Msg>)
    requires Ordered(q) && |q| > 0
    ensures Ordered(q[1..])
    ensures Rank(q[0]) < 2 ==> !Holds(q[1..], Rank(q[0]))
  {
    assert forall i :: 0 <= i < |q[1..]| ==> q[1..][i] == q[i + 1];
  }

  lemma ReadLink(x: Peer, y: Peer)
    requires Linked(x, y) && CanRead(y)
    ensures LinkOk(x, Read(y))
  {
    ReadRejects(x, y);
    if !Race(y) {
      TailOrdered(y.queue);
      HoldsTail(y.queue, 0);
      HoldsTail(y.queue, 1);
      HoldsTail(y.queue, 2);
      HoldsTail(y.queue, 3);
      match y.queue[0]
      case Bindings(_, _) => BindingsHead(x, y);
      case ReadyMsg(_) => ReadyHead(x, y);
      case _ => StreamHead(x, y);
    }
  }

  lemma ReadSends(y: Peer)
    requires CanRead(y) && LocalOk(y)
    ensures Sends(y, Read(y), None)
  {
  }

  // ----- over every run -----

  lemma ArriveLinked(x: Peer, y: Peer)
    requires Linked(x, y)
    ensures LocalOk(Arrive(y)) && LinkOk(x, Arrive(y)) && Sends(y, Arrive(y), None)
    ensures Rejected in Arrive(y).marks <==> Rejected in y.marks || Overflow(y)
  {
    LinkIdle(x, y, Arrive(y));
  }

  lemma ReadLinked(x: Peer, y: Peer)
    requires Linked(x, y) && CanRead(y)
    ensures LocalOk(Read(y)) && LinkOk(x, Read(y)) && Sends(y, Read(y), None)
    ensures Rejected in Read(y).marks ==> Rejected in y.marks || Race(y)
  {
    ReadLocal(y);
    ReadLink(x, y);
    ReadSends(y);
    ReadRejects(x, y);
  }

  lemma StreamLinked(x: Peer, y: Peer, size: ControlSize)
    requires Linked(x, y) && MayStream(y)
    ensures var y1 := y.Marked(DoneSent); LocalOk(y1) && LinkOk(x, y1) && Sends(y, y1, Some(DoneMsg(size)))
    ensures Rejected in y.Marked(DoneSent).marks ==> Rejected in y.marks
  {
    LinkIdle(x, y, y.Marked(DoneSent));
  }

  lemma LocalStepLinked(x: Peer, y: Peer, a: Action)
    requires Linked(x, y)
    ensures var o := LocalStep(y, a); LocalOk(o.0) && LinkOk(x, o.0) && Sends(y, o.0, o.1)
    ensures Rejected in LocalStep(y, a).0.marks ==> Rejected in y.marks || (a.OnRead? && Race(y)) || (a.OnArrive? && Overflow(y))
  {
    if Rejected !in y.marks {
      match a
      case OnOpen(_) => OpenLink(x, y); LinkIdle(x, y, Opened(y));
      case OnTicket(_) => TicketLink(x, y); TicketSends(x, y);
      case Move(_, t, size) => MoveLinked(x, y, t, size);
      case OnArrive(_) => ArriveLinked(x, y);
      case OnRead(_) => if CanRead(y) { ReadLinked(x, y); }
      case SendData(_, _) =>
      case SendDone(_, size) => if MayStream(y) { StreamLinked(x, y, size); }
    }
  }

  lemma MoveLinked(x: Peer, y: Peer, t: Thread, size: ControlSize)
    requires Linked(x, y)
    ensures var o := ThreadStep(y, t, size); LocalOk(o.0) && LinkOk(x, o.0) && Sends(y, o.0, o.1)
    ensures Rejected in ThreadStep(y, t, size).0.marks <==> Rejected in y.marks
  {
    ThreadSends(y, t, size);
    ThreadReceives(y, t, size);
    LinkIdle(x, y, ThreadStep(y, t, size).0);
    match t
    case Opener => OpenerLocal(y, size);
    case Ticketer => TicketerLocal(y, size);
    case Reader => ReaderLocal(y, size);
  }

  lemma ReceiveLocal(p: Peer, m: Option<Msg>)
    requires LocalOk(p)
    ensures LocalOk(Receive(p, m))
  {
  }

  lemma ReceiveOwnLink(x: Peer, y: Peer, m: Option<Msg>)
    requires LinkOk(x, y)
    ensures LinkOk(Receive(x, m), y)
  {
  }

  lemma StepLinked(s: Pair, a: Action)
    requires Linked(s.left, s.right)
    ensures var t := Step(s, a); Linked(t.left, t.right)
  {
    var y, x := s.Of(a.l), s.Of(!a.l);
    var o := LocalStep(y, a);
    LocalStepLinked(x, y, a);
    LinkSends(y, o.0, x, o.1);
    ReceiveLocal(x, o.1);
    ReceiveOwnLink(x, o.0, o.1);
    assert Linked(o.0, Receive(x, o.1));
  }

  lemma {:induction false} ReachLinked(r: Run)
    ensures Linked(Reach(r).left, Reach(r).right)
  {
    match r
    case Begin(left, right) =>
    case Next(before, action) =>
      ReachLinked(before);
      StepLinked(Reach(before), action);
  }

  /** A step makes an endpoint reject the other in exactly two cases: it reads the other's ready after sending
      its own bindings but before flagging them, or the next message does not fit its inbox. */
  lemma {:induction false} RejectsIffRaceOrOverflow(r: Run, a: Action)
    requires Rejected !in Reach(r).Of(a.l).marks
    ensures Rejected in Step(Reach(r), a).Of(a.l).marks <==>
      (a.OnRead? && Race(Reach(r).Of(a.l))) || (a.OnArrive? && Overflow(Reach(r).Of(a.l)))
    ensures Race(Reach(r).Of(a.l)) ==> Binding(Reach(r).Of(a.l))
    ensures Rejected in Step(Reach(r), a).Of(!a.l).marks <==> Rejected in Reach(r).Of(!a.l).marks
  {
    ReachLinked(r);
    var y, x := Reach(r).Of(a.l), Reach(r).Of(!a.l);
    LocalStepLinked(x, y, a);
    if CanRead(y) { ReadRejects(x, y); }
  }

  lemma {:induction false} FewBytes(q: seq<Msg>)
    ensures Bytes(q) <= |q| * CONTROL_MAX
  {
    if q != [] { FewBytes(q[..|q| - 1]); }
  }

  /** Bindings and ready never overflow an inbox: only DATA that outruns its reader does. */
  lemma {:induction false} OverflowNeedsData(r: Run, l: bool)
    requires Overflow(Reach(r).Of(l))
    ensures DataOpen in Reach(r).Of(!l).marks
  {
    ReachLinked(r);
    HandshakeFits(Reach(r).Of(!l), Reach(r).Of(l));
  }

  lemma LongQueueStreams(q: seq<Msg>)
    requires Ordered(q) && |q| > 2
    ensures Holds(q, 2) || Holds(q, 3)
  {
    assert Rank(q[0]) <= Rank(q[1]) <= Rank(q[2]);
    assert Holds(q, Rank(q[2]));
  }

  lemma HandshakeFits(x: Peer, y: Peer)
    requires Linked(x, y) && Overflow(y)
    ensures DataOpen in x.marks
  {
    FewBytes(y.queue[..y.arrived]);
    LongQueueStreams(y.queue);
  }

  /** With DATA open an endpoint has verified its ticket, checked the other's nonces against the hashes
      in it, and exchanged bindings and ready in both directions. */
  lemma DataOpenMeans(r: Run, l: bool)
    requires DataOpen in Reach(r).Of(l).marks
    ensures var p := Reach(r).Of(l);
            && {Ticket, BindingOK, BindingSent, ReadySent, RemoteReady} <= p.marks
            && p.accepted == Some(Reach(r).Of(!l).own) && HashesMatch(p, p.accepted.value)
            && SentReady(Reach(r).Of(!l))
  {
    ReachLinked(r);
  }

  predicate AtRest(p: Peer) {
    p.opener.Idle? && p.ticketer.Idle? && p.reader.Idle? && p.queue == []
  }

  /** When nothing is left to do, both tickets have arrived and both channels are open, DATA is open on
      both sides. */
  lemma QuiescentIsOpen(r: Run)
    requires var s := Reach(r);
             && AtRest(s.left) && AtRest(s.right)
             && {Open, Ticket} <= s.left.marks && {Open, Ticket} <= s.right.marks
    ensures DataOpen in Reach(r).left.marks && DataOpen in Reach(r).right.marks
  {
    ReachLinked(r);
    var x, y := Reach(r).left, Reach(r).right;
    assert BindingSent in x.marks && BindingSent in y.marks;
    assert GotBindings(x) && GotBindings(y);
    assert ReadySent in x.marks && ReadySent in y.marks;
  }

  // ----- the race happens -----

  ghost predicate Reachable(s: Pair) {
    exists r: Run :: Reach(r) == s
  }

  lemma Go(s: Pair, a: Action, next: Pair)
    requires Reachable(s) && next == Step(s, a)
    ensures Reachable(next)
  {
    var r: Run :| Reach(r) == s;
    assert Reach(Next(r, a)) == next;
  }

  const ALICE := Nonces("as", "ar")
  const BOB := Nonces("bs", "br")
  const SIZE: ControlSize := 200

  function Played(l: bool, marks: set<Mark>, accepted: Option<Nonces>, sending: Option<Thread>, opener: Pc, reader: Pc, queue: seq<Msg>, arrived: nat): Peer {
    var own, other := if l then ALICE else BOB, if l then BOB else ALICE;
    Peer(own, (Digest(other.session), Digest(other.round)), marks, None, accepted, sending, opener, TryBindings(AgainReady), reader, queue, arrived)
  }

  /** Both endpoints have their ticket and an open channel, and nothing was sent yet. */
  lemma BothReady() returns (s: Pair)
    ensures Reachable(s)
    ensures s == Pair(Played(true, {Open, Ticket}, None, None, TryBindings(Stop), Idle, [], 0),
                      Played(false, {Open, Ticket}, None, None, TryBindings(Stop), Idle, [], 0))
  {
    var s0 := Pair(Fresh(ALICE, BOB), Fresh(BOB, ALICE));
    assert Reach(Begin(ALICE, BOB)) == s0;
    var s1 := s0.(left := Opened(s0.left));
    Go(s0, OnOpen(true), s1);
    var s2 := s1.(left := Ticketed(s1.left));
    Go(s1, OnTicket(true), s2);
    var s3 := s2.(right := Opened(s2.right));
    Go(s2, OnOpen(false), s3);
    var s4 := s3.(right := Ticketed(s3.right));
    Go(s3, OnTicket(false), s4);
    s := s4;
    assert {Open} + {Ticket} == {Open, Ticket};
  }

  /** Bob's bindings reach Alice before hers are sent. */
  lemma BobBinds() returns (s: Pair)
    ensures Reachable(s)
    ensures s == Pair(Played(true, {Open, Ticket}, None, None, TryBindings(Stop), Idle, [Bindings(BOB, SIZE)], 0),
                      Played(false, {Open, Ticket, BindingSent}, None, None, TryReady(Stop), Idle, [], 0))
  {
    var s0 := BothReady();
    var s1 := Pair(s0.left.(queue := [Bindings(BOB, SIZE)]), s0.right.(sending := Some(Opener), opener := MarkBindings(Stop)));
    Go(s0, Move(false, Opener, SIZE), s1);
    s := Pair(s1.left, Played(false, {Open, Ticket, BindingSent}, None, None, TryReady(Stop), Idle, [], 0));
    assert {Open, Ticket} + {BindingSent} == {Open, Ticket, BindingSent};
    Go(s1, Move(false, Opener, SIZE), s);
  }

  lemma BobHeard() returns (s: Pair)
    ensures Reachable(s)
    ensures s == Pair(Played(true, {Open, Ticket, BindingOK}, Some(BOB), None, TryBindings(Stop), TryReady(Stop), [], 0),
                      Played(false, {Open, Ticket, BindingSent}, None, None, TryReady(Stop), Idle, [], 0))
  {
    var s0 := BobBinds();
    var s1 := ArrivesAt(s0, true);
    s := Pair(Played(true, {Open, Ticket, BindingOK}, Some(BOB), None, TryBindings(Stop), TryReady(Stop), [], 0), s0.right);
    assert {Open, Ticket} + {BindingOK} == {Open, Ticket, BindingOK};
    assert [Bindings(BOB, SIZE)][1..] == [];
    Go(s1, OnRead(true), s);
  }

  lemma BobFirst() returns (s: Pair)
    ensures Reachable(s)
    ensures s == Pair(Played(true, {Open, Ticket, BindingOK}, Some(BOB), None, TryBindings(Stop), Idle, [], 0),
                      Played(false, {Open, Ticket, BindingSent}, None, None, TryReady(Stop), Idle, [], 0))
  {
    var s0 := BobHeard();
    s := s0.(left := s0.left.(reader := Idle));
    Go(s0, Move(true, Reader, SIZE), s);
  }

  /** The only message on its way arrives. */
  lemma ArrivesAt(s: Pair, l: bool) returns (t: Pair)
    requires Reachable(s) && |s.Of(l).queue| == 1 && s.Of(l).arrived == 0 && Rejected !in s.Of(l).marks
    ensures Reachable(t) && t == s.With(l, s.Of(l).(arrived := 1))
  {
    assert s.Of(l).queue[..0] == [];
    t := s.With(l, s.Of(l).(arrived := 1));
    Go(s, OnArrive(l), t);
  }

  /** Alice as she has sent her bindings; she may have flagged them. */
  function Sender(flagged: bool): Peer {
    Played(true, if flagged then {Open, Ticket, BindingOK, BindingSent} else {Open, Ticket, BindingOK}, Some(BOB),
           if flagged then None else Some(Opener), if flagged then TryReady(Stop) else MarkBindings(Stop), Idle, [], 0)
  }

  lemma AliceStarts(flagged: bool) returns (s: Pair)
    ensures Reachable(s)
    ensures s == Pair(Sender(flagged), Played(false, {Open, Ticket, BindingSent}, None, None, TryReady(Stop), Idle, [Bindings(ALICE, SIZE)], 0))
  {
    var s0 := BobFirst();
    s := Pair(s0.left.(sending := Some(Opener), opener := MarkBindings(Stop)), s0.right.(queue := [Bindings(ALICE, SIZE)]));
    Go(s0, Move(true, Opener, SIZE), s);
    if flagged {
      var s1 := s.(left := Sender(true));
      assert {Open, Ticket, BindingOK} + {BindingSent} == {Open, Ticket, BindingOK, BindingSent};
      Go(s, Move(true, Opener, SIZE), s1);
      s := s1;
    }
  }

  /** Alice's bindings reach Bob. */
  lemma AliceSends(flagged: bool) returns (s: Pair)
    ensures Reachable(s)
    ensures s == Pair(Sender(flagged), Played(false, {Open, Ticket, BindingSent, BindingOK}, Some(ALICE), None, TryReady(Stop), TryReady(Stop), [], 0))
  {
    var s0 := AliceStarts(flagged);
    var s1 := ArrivesAt(s0, false);
    s := Pair(s0.left, Played(false, {Open, Ticket, BindingSent, BindingOK}, Some(ALICE), None, TryReady(Stop), TryReady(Stop), [], 0));
    assert {Open, Ticket, BindingSent} + {BindingOK} == {Open, Ticket, BindingSent, BindingOK};
    assert [Bindings(ALICE, SIZE)][1..] == [];
    Go(s1, OnRead(false), s);
  }

  /** Alice sends her bindings; before she flags them Bob answers ready, and she takes it for an error. */
  lemma RaceHappens() returns (s: Pair)
    ensures Reachable(s) && Rejected in s.left.marks && Rejected !in s.right.marks
  {
    var s0 := AliceSends(false);
    var s1 := Pair(s0.left.(queue := [ReadyMsg(SIZE)]), s0.right.(sending := Some(Reader), reader := MarkReady(Stop)));
    Go(s0, Move(false, Reader, SIZE), s1);
    var s2 := ArrivesAt(s1, true);
    s := s2.(left := s2.left.Marked(Rejected));
    Go(s2, OnRead(true), s);
  }

  // ----- so does the overflow -----

  function Slow(q: seq<Msg>, arrived: nat): Peer {
    Played(true, {Open, Ticket, BindingOK, BindingSent, ReadySent}, Some(BOB), None, TryActivate(Stop), Idle, q, arrived)
  }

  const BOB_READY := {Open, Ticket, BindingSent, BindingOK, ReadySent}

  /** Bob has answered ready, and Alice too. */
  lemma BothAnswer() returns (s: Pair)
    ensures Reachable(s)
    ensures s == Pair(Slow([ReadyMsg(SIZE)], 0), Played(false, BOB_READY, Some(ALICE), None, TryReady(Stop), Idle, [ReadyMsg(SIZE)], 0))
  {
    var s0 := AliceSends(true);
    var s1 := Pair(s0.left.(queue := [ReadyMsg(SIZE)]), s0.right.(sending := Some(Reader), reader := MarkReady(Stop)));
    Go(s0, Move(false, Reader, SIZE), s1);
    var s2 := s1.(right := Played(false, BOB_READY, Some(ALICE), None, TryReady(Stop), TryActivate(Stop), [], 0));
    assert {Open, Ticket, BindingSent, BindingOK} + {ReadySent} == BOB_READY;
    Go(s1, Move(false, Reader, SIZE), s2);
    var s3 := s2.(right := s2.right.(reader := Idle));
    Go(s2, Move(false, Reader, SIZE), s3);
    var s4 := Pair(s3.left.(sending := Some(Opener), opener := MarkReady(Stop)), s3.right.(queue := [ReadyMsg(SIZE)]));
    Go(s3, Move(true, Opener, SIZE), s4);
    s := s4.(left := Slow([ReadyMsg(SIZE)], 0));
    assert {Open, Ticket, BindingOK, BindingSent} + {ReadySent} == {Open, Ticket, BindingOK, BindingSent, ReadySent};
    Go(s4, Move(true, Opener, SIZE), s);
  }

  const FAST := Played(false, BOB_READY + {RemoteReady} + {DataOpen}, Some(ALICE), None, TryReady(Stop), Idle, [], 0)

  /** Bob opens DATA while Alice's reader has not come to his ready. */
  lemma BobStreams() returns (s: Pair)
    ensures Reachable(s) && s == Pair(Slow([ReadyMsg(SIZE)], 1), FAST)
  {
    var s0 := BothAnswer();
    var s1 := ArrivesAt(s0, false);
    var s2 := s1.(right := s1.right.(queue := [], arrived := 0, marks := BOB_READY + {RemoteReady}, reader := TryReady(Activate)));
    assert [ReadyMsg(SIZE)][1..] == [];
    Go(s1, OnRead(false), s2);
    var s3 := s2.(right := s2.right.(reader := TryActivate(Stop)));
    Go(s2, Move(false, Reader, SIZE), s3);
    var s4 := s3.(right := FAST);
    Go(s3, Move(false, Reader, SIZE), s4);
    s := ArrivesAt(s4, true);
  }

  lemma BobSends(q: seq<Msg>, n: nat) returns (more: seq<Msg>)
    requires |q| == n && Reachable(Pair(Slow(q, n), FAST))
    ensures more == q + [Data(SIZE)] && Reachable(Pair(Slow(more, n), FAST))
  {
    more := q + [Data(SIZE)];
    Go(Pair(Slow(q, n), FAST), SendData(false, SIZE), Pair(Slow(more, n), FAST));
  }

  lemma AliceTakes(q: seq<Msg>, n: nat)
    requires n < INBOX_MAX && |q| == n + 1 && q[n] == Data(SIZE) && Bytes(q[..n]) == n * SIZE && Reachable(Pair(Slow(q, n), FAST))
    ensures Reachable(Pair(Slow(q, n + 1), FAST))
  {
    Go(Pair(Slow(q, n), FAST), OnArrive(true), Pair(Slow(q, n + 1), FAST));
  }

  lemma {:induction false} Flood(n: nat) returns (q: seq<Msg>)
    requires 1 <= n <= INBOX_MAX
    ensures |q| == n && Bytes(q) == n * SIZE && Reachable(Pair(Slow(q, n), FAST))
  {
    if n == 1 {
      var s := BobStreams();
      q := [ReadyMsg(SIZE)];
      assert q[..0] == [];
    } else {
      var p := Flood(n - 1);
      q := BobSends(p, n - 1);
      assert q[..n - 1] == p;
      AliceTakes(q, n - 1);
    }
  }

  /** While Alice's reader is held up, Bob's DATA fills her inbox, and she rejects him. */
  lemma OverflowHappens() returns (s: Pair)
    ensures Reachable(s) && Rejected in s.left.marks && BindingSent in s.left.marks && Rejected !in s.right.marks
  {
    var q := Flood(INBOX_MAX);
    var more := BobSends(q, INBOX_MAX);
    var s0 := Pair(Slow(more, INBOX_MAX), FAST);
    s := s0.(left := s0.left.Marked(Rejected));
    Go(s0, OnArrive(true), s);
  }
}
