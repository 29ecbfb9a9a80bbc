/** Work admission against the automatic update: the handlers of remote requests as goroutines, each step a section
    under the Agent mutex or one move between two sections. A reservation is one unit of activeWork. */
module WorkGuard {
  import opened Prelude

  datatype Kind = RunTask | TypeTask | PluginTask | DesktopTask | PeerTask

  /** The transport loop in dispatchEnvelope, or in the prepare handler: it owns a reservation while it is inside. */
  datatype Loop = Inside | Out

  /** A goroutine of goWork, from start to end; it owns a reservation unless it is not there. */
  datatype Hand = NoHand | Judging | Working | Leaving | Over

  /** The goroutine that waits for the end of a command. */
  datatype Watch = NoWatch | Watching | Watched

  /** What a request has set going: the command in its pane, the plugin, the input, the capture. */
  datatype Effect = Nothing | Running | Ended

  /** One request. `hand` handles it, `resumed` goes on after local consent; both may be there for a moment. A
      retried correlation id is another request. `admitted` is its run admission. */
  datatype Task = Task(corr: string, kind: Kind, loop: Loop, hand: Hand, resumed: Hand, watch: Watch, effect: Effect, admitted: bool)

  /** A local approval at work, with the request whose consent it has taken. */
  datatype Approver = Holding(task: Option<nat>) | Gone

  datatype State = State(
    activeWork: int, committing: bool, restarting: bool, pending: Option<nat>, prompt: Option<nat>, sessions: set<nat>,
    recoveries: nat, tasks: seq<Task>, approvers: seq<Approver>)

  datatype Verdict = Refuse | Ask | Proceed

  datatype Action =
    | Dispatch(corr: string, kind: Kind)
    | Spawn(i: nat) | LoopJudges(i: nat, v: Verdict) | LoopLeaves(i: nat)
    | Judges(i: nat, v: Verdict)
    | Starts(i: nat, again: bool, ok: bool) | Watches(i: nat, again: bool) | Ends(i: nat) | Finishes(i: nat, again: bool)
    | WatchEnds(i: nat) | Leaves(i: nat, again: bool)
    | PeerStarts(i: nat) | PeerDrops(i: nat) | Recoveries(n: nat)
    | Approves | ApproverHands(k: nat) | ApproverLeaves(k: nat)
    | Denies | Revokes
    | BeginsCommit(wanted: bool) | EndsCommit | Restarts(on: bool)

  const START := State(0, false, false, None, None, {}, 0, [], [])

  predicate Holds(h: Hand) {
    h.Judging? || h.Working? || h.Leaving?
  }

  function At(t: Task, again: bool): Hand {
    if again then t.resumed else t.hand
  }

  function Put(t: Task, again: bool, h: Hand): Task {
    if again then t.(resumed := h) else t.(hand := h)
  }

  function With(s: State, i: nat, t: Task, more: int): State
    requires i < |s.tasks|
  {
    s.(tasks := s.tasks[i := t], activeWork := s.activeWork + more)
  }

  /** What a judgement comes to: only one request waits for consent, and only one desktop request. */
  function Judged(s: State, k: Kind, v: Verdict): Verdict {
    if v.Ask? && (if k.DesktopTask? then s.prompt.Some? else s.pending.Some?) then Refuse else v
  }

  function Asked(s: State, i: nat, k: Kind): State {
    if k.DesktopTask? then s.(prompt := Some(i)) else s.(pending := Some(i))
  }

  /** beginWork, and the goroutine of dispatchEnvelope that has passed it. */
  function Dispatched(s: State, corr: string, kind: Kind): State {
    if s.committing || s.restarting then s
    else s.(activeWork := s.activeWork + 1, tasks := s.tasks + [Task(corr, kind, Inside, NoHand, NoHand, NoWatch, Nothing, kind.RunTask?)])
  }

  /** goWork for a handler of its own. */
  function Spawned(s: State, i: nat): State {
    if i >= |s.tasks| then s
    else
      var t := s.tasks[i];
      if t.loop.Out? || !t.hand.NoHand? || t.kind.PluginTask? || t.kind.PeerTask? then s
      else With(s, i, t.(hand := Judging), 1)
  }

  /** handlePlugin and handlePluginPeerPrepare judge on the loop. A session enters the table before its consent. */
  function LoopJudged(s: State, i: nat, v: Verdict): State {
    if i >= |s.tasks| then s
    else
      var t := s.tasks[i];
      var w := Judged(s, t.kind, v);
      if t.loop.Out? || !t.hand.NoHand? || !(t.kind.PluginTask? || t.kind.PeerTask?) then s
      else if t.kind.PluginTask? then
        (match w
         case Refuse => With(s, i, t.(hand := Over), 0)
         case Ask => Asked(With(s, i, t.(hand := Over), 0), i, t.kind)
         case Proceed => With(s, i, t.(hand := Working), 1))
      else
        (match w
         case Refuse => With(s, i, t.(hand := Over), 0)
         case Ask => Asked(With(s, i, t.(hand := Over), 0), i, t.kind).(sessions := s.sessions + {i})
         case Proceed => With(s, i, t.(hand := Over), 0).(sessions := s.sessions + {i}))
  }

  function LoopLeft(s: State, i: nat): State {
    if i >= |s.tasks| || s.tasks[i].loop.Out? || s.tasks[i].hand.NoHand? then s
    else With(s, i, s.tasks[i].(loop := Out), -1)
  }

  /** handleRun, handleType and the desktop handlers under the mutex. */
  function HandJudged(s: State, i: nat, v: Verdict): State {
    if i >= |s.tasks| || !s.tasks[i].hand.Judging? then s
    else
      var t := s.tasks[i];
      match Judged(s, t.kind, v)
      case Refuse => With(s, i, t.(hand := Leaving), 0)
      case Ask => Asked(With(s, i, t.(hand := Leaving), 0), i, t.kind)
      case Proceed => With(s, i, t.(hand := Working), 0)
  }

  /** spawnPane, the input, the capture, or the plugin: it starts, or an error is sent. */
  function Started(s: State, i: nat, again: bool, ok: bool): State {
    if i >= |s.tasks| || !At(s.tasks[i], again).Working? || !s.tasks[i].effect.Nothing? || s.tasks[i].kind.PeerTask? then s
    else if ok then With(s, i, s.tasks[i].(effect := Running), 0)
    else With(s, i, Put(s.tasks[i], again, Leaving), 0)
  }

  /** A command has its own watcher; its handler then leaves. */
  function WatchedBy(s: State, i: nat, again: bool): State {
    if i >= |s.tasks| || !At(s.tasks[i], again).Working? || !s.tasks[i].kind.RunTask? || s.tasks[i].effect.Nothing? || !s.tasks[i].watch.NoWatch?
    then s
    else With(s, i, Put(s.tasks[i], again, Leaving).(watch := Watching), 1)
  }

  function EffectEnded(s: State, i: nat): State {
    if i >= |s.tasks| || !s.tasks[i].effect.Running? then s else With(s, i, s.tasks[i].(effect := Ended), 0)
  }

  /** Other handlers stay with what they started; the one that only approves a session has started nothing. */
  function HandFinished(s: State, i: nat, again: bool): State {
    if i >= |s.tasks| || !At(s.tasks[i], again).Working? || s.tasks[i].kind.RunTask? then s
    else if s.tasks[i].effect.Ended? || s.tasks[i].kind.PeerTask? then With(s, i, Put(s.tasks[i], again, Leaving), 0)
    else s
  }

  function WatchEnded(s: State, i: nat): State {
    if i >= |s.tasks| || !s.tasks[i].watch.Watching? || !s.tasks[i].effect.Ended? then s
    else With(s, i, s.tasks[i].(watch := Watched), -1)
  }

  /** The deferred finishWork; the run admission goes with the first handler. */
  function HandLeft(s: State, i: nat, again: bool): State {
    if i >= |s.tasks| || !At(s.tasks[i], again).Leaving? then s
    else With(s, i, Put(s.tasks[i], again, Over).(admitted := if again then s.tasks[i].admitted else false), -1)
  }

  /** A session in the table opens a plugin process, without a reservation. One that has left the table opens
      processes only to recover (PeerLifecycleTheorems.DropsNothingAlive), and counts as a recovery meanwhile. */
  function PeerStarted(s: State, i: nat): State {
    if i >= |s.tasks| || i !in s.sessions || s.tasks[i].effect.Running? then s else With(s, i, s.tasks[i].(effect := Running), 0)
  }

  /** dropPluginPeer; its consent goes with it. No process of the session is left: that is what
      PeerLifecycleTheorems.DropsNothingAlive proves of every run of a session. */
  function PeerDropped(s: State, i: nat): State {
    if i >= |s.tasks| || s.tasks[i].effect.Running? then s
    else s.(sessions := s.sessions - {i}, pending := if s.pending == Some(i) && i in s.sessions then None else s.pending)
  }

  /** approve, first section: consent becomes a reservation. */
  function Approved(s: State): State {
    if s.committing || s.restarting then s
    else
      var n := s.(activeWork := s.activeWork + 1);
      if s.prompt.Some? then n.(prompt := None, approvers := s.approvers + [Holding(None)])
      else n.(pending := None, approvers := s.approvers + [Holding(s.pending)])
  }

  /** goWork for the request that was approved. */
  function HandedOn(s: State, k: nat): State {
    if k >= |s.approvers| || s.approvers[k].Gone? || s.approvers[k].task.None? || s.approvers[k].task.value >= |s.tasks| then s
    else
      var i := s.approvers[k].task.value;
      With(s, i, s.tasks[i].(resumed := Working), 1).(approvers := s.approvers[k := Holding(None)])
  }

  function ApproverLeft(s: State, k: nat): State {
    if k >= |s.approvers| || s.approvers[k] != Holding(None) then s
    else s.(approvers := s.approvers[k := Gone], activeWork := s.activeWork - 1)
  }

  /** isIdleLocked; a pane is busy while its command runs. */
  predicate IsIdle(s: State) {
    && s.pending.None? && s.prompt.None? && !s.restarting && !s.committing && s.activeWork == 0
    && s.sessions == {} && s.recoveries == 0
    && forall i :: 0 <= i < |s.tasks| ==> !s.tasks[i].admitted && !(s.tasks[i].kind.RunTask? && s.tasks[i].effect.Running?)
  }

  function Step(s: State, a: Action): State {
    match a
    case Dispatch(corr, kind) => Dispatched(s, corr, kind)
    case Spawn(i) => Spawned(s, i)
    case LoopJudges(i, v) => LoopJudged(s, i, v)
    case LoopLeaves(i) => LoopLeft(s, i)
    case Judges(i, v) => HandJudged(s, i, v)
    case Starts(i, again, ok) => Started(s, i, again, ok)
    case Watches(i, again) => WatchedBy(s, i, again)
    case Ends(i) => EffectEnded(s, i)
    case Finishes(i, again) => HandFinished(s, i, again)
    case WatchEnds(i) => WatchEnded(s, i)
    case Leaves(i, again) => HandLeft(s, i, again)
    case PeerStarts(i) => PeerStarted(s, i)
    case PeerDrops(i) => PeerDropped(s, i)
    case Recoveries(n) => s.(recoveries := n)
    case Approves => Approved(s)
    case ApproverHands(k) => HandedOn(s, k)
    case ApproverLeaves(k) => ApproverLeft(s, k)
    case Denies => if s.prompt.Some? then s.(prompt := None) else s.(pending := None)
    case Revokes => s.(pending := None, prompt := None)
    case BeginsCommit(wanted) => if wanted && IsIdle(s) then s.(committing := true) else s
    case EndsCommit => s.(committing := false)
    case Restarts(on) => s.(restarting := on)
  }

  datatype Run = Begin | Then(before: Run, action: Action)

  function Reach(r: Run): State {
    match r case Begin => START case Then(before, a) => Step(Reach(before), a)
  }

  // ----- reservations -----

  function Bit(b: bool): nat {
    if b then 1 else 0
  }

  function Of(t: Task): nat {
    Bit(t.loop.Inside?) + Bit(Holds(t.hand)) + Bit(Holds(t.resumed)) + Bit(t.watch.Watching?)
  }

  /** The reservations that are out, by those who will give them back. */
  function TasksHold(ts: seq<Task>): nat {
    if |ts| == 0 then 0 else TasksHold(ts[..|ts| - 1]) + Of(ts[|ts| - 1])
  }

  function ApproversHold(ps: seq<Approver>): nat {
    if |ps| == 0 then 0 else ApproversHold(ps[..|ps| - 1]) + Bit(ps[|ps| - 1].Holding?)
  }

  lemma {:induction false} TaskChanges(ts: seq<Task>, i: nat, t: Task)
    requires i < |ts|
    ensures TasksHold(ts[i := t]) == TasksHold(ts) - Of(ts[i]) + Of(t)
  {
    var n := |ts| - 1;
    if i == n {
      assert ts[i := t][..n] == ts[..n];
    } else {
      assert ts[i := t][..n] == ts[..n][i := t];
      TaskChanges(ts[..n], i, t);
    }
  }

  lemma TaskJoins(ts: seq<Task>, t: Task)
    ensures TasksHold(ts + [t]) == TasksHold(ts) + Of(t)
  {
    assert (ts + [t])[..|ts|] == ts;
  }

  lemma {:induction false} ApproverChanges(ps: seq<Approver>, k: nat, p: Approver)
    requires k < |ps|
    ensures ApproversHold(ps[k := p]) == ApproversHold(ps) - Bit(ps[k].Holding?) + Bit(p.Holding?)
  {
    var n := |ps| - 1;
    if k == n {
      assert ps[k := p][..n] == ps[..n];
    } else {
      assert ps[k := p][..n] == ps[..n][k := p];
      ApproverChanges(ps[..n], k, p);
    }
  }

  lemma ApproverJoins(ps: seq<Approver>, p: Approver)
    ensures ApproversHold(ps + [p]) == ApproversHold(ps) + Bit(p.Holding?)
  {
    assert (ps + [p])[..|ps|] == ps;
  }

  lemma {:induction false} NoneHeld(ts: seq<Task>, i: nat)
    requires TasksHold(ts) == 0 && i < |ts|
    ensures Of(ts[i]) == 0
  {
    if i < |ts| - 1 { NoneHeld(ts[..|ts| - 1], i); }
  }

  lemma {:induction false} NoneHolding(ps: seq<Approver>, k: nat)
    requires ApproversHold(ps) == 0 && k < |ps|
    ensures ps[k].Gone?
  {
    if k < |ps| - 1 { NoneHolding(ps[..|ps| - 1], k); }
  }

  // ----- the invariant -----

  /** The consent of the request was asked for, and has not been given to a goroutine. */
  predicate Waits(s: State, i: nat) {
    s.pending == Some(i) || exists k :: 0 <= k < |s.approvers| && s.approvers[k] == Holding(Some(i))
  }

  /** A goroutine that answers for the request with its own reservation. */
  predicate Attended(t: Task) {
    t.hand.Working? || t.resumed.Working? || t.watch.Watching?
  }

  predicate TaskOk(t: Task) {
    && (!t.kind.PeerTask? && t.effect.Running? ==> Attended(t))
    && (t.admitted ==> t.kind.RunTask? && !t.hand.Over?)
    && (t.loop.Out? ==> !t.hand.NoHand?)
    && (t.hand.NoHand? || t.hand.Judging? ==> t.resumed.NoHand? && t.watch.NoWatch? && (t.kind.PeerTask? || t.effect.Nothing?))
    && (!t.resumed.NoHand? ==> t.hand.Leaving? || t.hand.Over?)
  }

  /** A request that waits has started nothing. */
  predicate WaitOk(t: Task) {
    t.resumed.NoHand? && (t.hand.Leaving? || t.hand.Over?) && (t.kind.PeerTask? || t.effect.Nothing?) && t.watch.NoWatch?
  }

  predicate Counted(s: State) {
    s.activeWork == TasksHold(s.tasks) + ApproversHold(s.approvers)
  }

  predicate Inv(s: State) {
    && Counted(s)
    && (forall i :: 0 <= i < |s.tasks| ==> TaskOk(s.tasks[i]))
    && (forall i :: 0 <= i < |s.tasks| && s.tasks[i].kind.PeerTask? && s.tasks[i].effect.Running? ==> i in s.sessions)
    && (forall i :: i in s.sessions ==> i < |s.tasks| && s.tasks[i].kind.PeerTask?)
    && (s.pending.Some? ==> s.pending.value < |s.tasks| && WaitOk(s.tasks[s.pending.value]))
    && (forall k :: 0 <= k < |s.approvers| && s.approvers[k].Holding? && s.approvers[k].task.Some? ==>
          s.approvers[k].task.value < |s.tasks| && WaitOk(s.tasks[s.approvers[k].task.value]) && s.pending != s.approvers[k].task)
    && (forall k, l :: 0 <= k < l < |s.approvers| && s.approvers[k].Holding? && s.approvers[l].Holding? && s.approvers[k].task.Some? ==>
          s.approvers[k].task != s.approvers[l].task)
    && (s.committing ==> s.activeWork == 0 && s.pending.None? && s.prompt.None? && s.sessions == {})
  }

  /** Without reservations nothing is at work. */
  lemma ZeroIsQuiet(s: State)
    requires Inv(s) && s.activeWork == 0
    ensures forall i :: 0 <= i < |s.tasks| ==> Of(s.tasks[i]) == 0
    ensures forall k :: 0 <= k < |s.approvers| ==> s.approvers[k].Gone?
  {
    forall i | 0 <= i < |s.tasks| ensures Of(s.tasks[i]) == 0 { NoneHeld(s.tasks, i); }
    forall k | 0 <= k < |s.approvers| ensures s.approvers[k].Gone? { NoneHolding(s.approvers, k); }
  }

  predicate Held(s: State, i: nat) {
    exists k :: 0 <= k < |s.approvers| && s.approvers[k] == Holding(Some(i))
  }

  /** One request moves; those who wait for it must not mind. */
  lemma WithKeeps(s: State, i: nat, t: Task, more: int)
    requires Inv(s) && i < |s.tasks| && Of(t) == Of(s.tasks[i]) + more && TaskOk(t) && t.kind == s.tasks[i].kind
    requires t.kind.PeerTask? && t.effect.Running? ==> i in s.sessions
    requires s.pending == Some(i) || Held(s, i) ==> WaitOk(t)
    requires s.committing ==> more == 0
    ensures Inv(With(s, i, t, more))
  {
    TaskChanges(s.tasks, i, t);
  }

  /** A request that was not waiting begins to wait. */
  lemma AskedKeeps(s: State, i: nat, k: Kind)
    requires Inv(s) && i < |s.tasks| && !s.committing && (k.DesktopTask? || (s.pending.None? && WaitOk(s.tasks[i]) && !Held(s, i)))
    ensures Inv(Asked(s, i, k))
  {
  }

  lemma JoinKeeps(s: State, t: Task)
    requires Inv(s) && !s.committing && TaskOk(t) && Of(t) == 1 && t.effect.Nothing?
    ensures Inv(s.(activeWork := s.activeWork + 1, tasks := s.tasks + [t]))
  {
    TaskJoins(s.tasks, t);
    var n := s.(activeWork := s.activeWork + 1, tasks := s.tasks + [t]);
    assert forall i :: 0 <= i < |s.tasks| ==> n.tasks[i] == s.tasks[i];
    assert n.tasks[|s.tasks|] == t;
  }

  lemma DispatchKeeps(s: State, corr: string, kind: Kind)
    requires Inv(s)
    ensures Inv(Dispatched(s, corr, kind))
  {
    if !s.committing && !s.restarting {
      JoinKeeps(s, Task(corr, kind, Inside, NoHand, NoHand, NoWatch, Nothing, kind.RunTask?));
    }
  }

  lemma SpawnKeeps(s: State, i: nat)
    requires Inv(s)
    ensures Inv(Spawned(s, i))
  {
    if Spawned(s, i) != s {
      if s.committing { ZeroIsQuiet(s); }
      WithKeeps(s, i, s.tasks[i].(hand := Judging), 1);
    }
  }

  lemma LoopEndsKeeps(s: State, i: nat)
    requires Inv(s) && i < |s.tasks| && s.tasks[i].loop.Inside? && s.tasks[i].hand.NoHand? && !s.tasks[i].kind.RunTask?
    ensures var u := With(s, i, s.tasks[i].(hand := Over), 0); Inv(u) && !u.committing && WaitOk(u.tasks[i]) && !Held(u, i)
  {
    assert !Held(s, i);
    if s.committing { ZeroIsQuiet(s); }
    WithKeeps(s, i, s.tasks[i].(hand := Over), 0);
  }

  lemma ListedKeeps(s: State, i: nat)
    requires Inv(s) && i < |s.tasks| && s.tasks[i].kind.PeerTask? && !s.committing
    ensures Inv(s.(sessions := s.sessions + {i}))
  {
  }

  lemma LoopJudgesKeeps(s: State, i: nat, v: Verdict)
    requires Inv(s)
    ensures Inv(LoopJudged(s, i, v))
  {
    if i < |s.tasks| && s.tasks[i].loop.Inside? && s.tasks[i].hand.NoHand? && (s.tasks[i].kind.PluginTask? || s.tasks[i].kind.PeerTask?) {
      var t := s.tasks[i];
      var w := Judged(s, t.kind, v);
      LoopEndsKeeps(s, i);
      var u := With(s, i, t.(hand := Over), 0);
      if w.Ask? {
        AskedKeeps(u, i, t.kind);
        if t.kind.PeerTask? { ListedKeeps(Asked(u, i, t.kind), i); }
      } else if w.Proceed? {
        if t.kind.PluginTask? { WithKeeps(s, i, t.(hand := Working), 1); } else { ListedKeeps(u, i); }
      }
    }
  }

  lemma LoopLeavesKeeps(s: State, i: nat)
    requires Inv(s)
    ensures Inv(LoopLeft(s, i))
  {
    if LoopLeft(s, i) != s {
      if s.committing { ZeroIsQuiet(s); }
      WithKeeps(s, i, s.tasks[i].(loop := Out), -1);
    }
  }

  lemma JudgesKeeps(s: State, i: nat, v: Verdict)
    requires Inv(s)
    ensures Inv(HandJudged(s, i, v))
  {
    if i < |s.tasks| && s.tasks[i].hand.Judging? {
      if s.committing { ZeroIsQuiet(s); }
      assert !Held(s, i);
      var t := s.tasks[i];
      if Judged(s, t.kind, v).Proceed? {
        WithKeeps(s, i, t.(hand := Working), 0);
      } else {
        WithKeeps(s, i, t.(hand := Leaving), 0);
        var u := With(s, i, t.(hand := Leaving), 0);
        if Judged(s, t.kind, v).Ask? { AskedKeeps(u, i, t.kind); }
      }
    }
  }

  /** A request with a goroutine at work does not wait. */
  lemma WorkerWaitsNot(s: State, i: nat, again: bool)
    requires Inv(s) && i < |s.tasks| && At(s.tasks[i], again).Working?
    ensures s.pending != Some(i) && !Held(s, i) && !s.committing
  {
    if s.committing { ZeroIsQuiet(s); }
  }

  lemma StartsKeeps(s: State, i: nat, again: bool, ok: bool)
    requires Inv(s)
    ensures Inv(Started(s, i, again, ok))
  {
    if Started(s, i, again, ok) != s {
      WorkerWaitsNot(s, i, again);
      WithKeeps(s, i, if ok then s.tasks[i].(effect := Running) else Put(s.tasks[i], again, Leaving), 0);
    }
  }

  lemma WatchesKeeps(s: State, i: nat, again: bool)
    requires Inv(s)
    ensures Inv(WatchedBy(s, i, again))
  {
    if WatchedBy(s, i, again) != s {
      WorkerWaitsNot(s, i, again);
      WithKeeps(s, i, Put(s.tasks[i], again, Leaving).(watch := Watching), 1);
    }
  }

  lemma EndsKeeps(s: State, i: nat)
    requires Inv(s)
    ensures Inv(EffectEnded(s, i))
  {
    if EffectEnded(s, i) != s { WithKeeps(s, i, s.tasks[i].(effect := Ended), 0); }
  }

  lemma FinishesKeeps(s: State, i: nat, again: bool)
    requires Inv(s)
    ensures Inv(HandFinished(s, i, again))
  {
    if HandFinished(s, i, again) != s {
      WorkerWaitsNot(s, i, again);
      WithKeeps(s, i, Put(s.tasks[i], again, Leaving), 0);
    }
  }

  lemma WatchEndsKeeps(s: State, i: nat)
    requires Inv(s)
    ensures Inv(WatchEnded(s, i))
  {
    if WatchEnded(s, i) != s {
      if s.committing { ZeroIsQuiet(s); }
      WithKeeps(s, i, s.tasks[i].(watch := Watched), -1);
    }
  }

  lemma LeavesKeeps(s: State, i: nat, again: bool)
    requires Inv(s)
    ensures Inv(HandLeft(s, i, again))
  {
    if HandLeft(s, i, again) != s {
      if s.committing { ZeroIsQuiet(s); }
      WithKeeps(s, i, Put(s.tasks[i], again, Over).(admitted := if again then s.tasks[i].admitted else false), -1);
    }
  }

  lemma PeerKeeps(s: State, i: nat)
    requires Inv(s)
    ensures Inv(PeerStarted(s, i)) && Inv(PeerDropped(s, i))
  {
    if PeerStarted(s, i) != s { WithKeeps(s, i, s.tasks[i].(effect := Running), 0); }
  }

  lemma ApprovesKeeps(s: State)
    requires Inv(s)
    ensures Inv(Approved(s))
  {
    var p := Holding(if s.prompt.Some? then None else s.pending);
    ApproverJoins(s.approvers, p);
    assert forall k :: 0 <= k < |s.approvers| ==> (s.approvers + [p])[k] == s.approvers[k];
    assert (s.approvers + [p])[|s.approvers|] == p;
  }

  /** An approver lets a request go; nobody else has it. */
  lemma LetsGo(s: State, k: nat)
    requires Inv(s) && k < |s.approvers| && s.approvers[k].Holding? && s.approvers[k].task.Some?
    ensures var u := s.(approvers := s.approvers[k := Holding(None)]);
      Inv(u) && !Held(u, s.approvers[k].task.value) && u.pending != s.approvers[k].task
  {
    ApproverChanges(s.approvers, k, Holding(None));
  }

  lemma HandsKeeps(s: State, k: nat)
    requires Inv(s)
    ensures Inv(HandedOn(s, k))
  {
    if k < |s.approvers| && s.approvers[k].Holding? && s.approvers[k].task.Some? {
      if s.committing { ZeroIsQuiet(s); }
      LetsGo(s, k);
      var i := s.approvers[k].task.value;
      var u := s.(approvers := s.approvers[k := Holding(None)]);
      WithKeeps(u, i, u.tasks[i].(resumed := Working), 1);
    }
  }

  lemma ApproverLeavesKeeps(s: State, k: nat)
    requires Inv(s)
    ensures Inv(ApproverLeft(s, k))
  {
    if ApproverLeft(s, k) != s {
      if s.committing { ZeroIsQuiet(s); }
      ApproverChanges(s.approvers, k, Gone);
    }
  }

  predicate OfApprover(a: Action) {
    a.Approves? || a.ApproverHands? || a.ApproverLeaves?
  }

  predicate OfFlags(a: Action) {
    a.Recoveries? || a.Denies? || a.Revokes? || a.BeginsCommit? || a.EndsCommit? || a.Restarts?
  }

  lemma FlagsKeep(s: State, a: Action)
    requires Inv(s) && OfFlags(a)
    ensures Inv(Step(s, a))
  {
    match a
    case Recoveries(n) =>
    case Denies => if s.prompt.Some? {} else {}
    case Revokes =>
    case BeginsCommit(wanted) => if wanted && IsIdle(s) {} else {}
    case EndsCommit =>
    case Restarts(on) =>
  }

  lemma ApproverKeeps(s: State, a: Action)
    requires Inv(s) && OfApprover(a)
    ensures Inv(Step(s, a))
  {
    match a
    case Approves => ApprovesKeeps(s);
    case ApproverHands(k) => HandsKeeps(s, k);
    case ApproverLeaves(k) => ApproverLeavesKeeps(s, k);
  }

  predicate OfLoop(a: Action) {
    a.Dispatch? || a.Spawn? || a.LoopJudges? || a.LoopLeaves?
  }

  predicate OfPeer(a: Action) {
    a.PeerStarts? || a.PeerDrops?
  }

  lemma LoopKeeps(s: State, a: Action)
    requires Inv(s) && OfLoop(a)
    ensures Inv(Step(s, a))
  {
    match a
    case Dispatch(corr, kind) => DispatchKeeps(s, corr, kind);
    case Spawn(i) => SpawnKeeps(s, i);
    case LoopJudges(i, v) => LoopJudgesKeeps(s, i, v);
    case LoopLeaves(i) => LoopLeavesKeeps(s, i);
  }

  lemma RequestKeeps(s: State, a: Action)
    requires Inv(s) && !OfApprover(a) && !OfFlags(a) && !OfLoop(a) && !OfPeer(a)
    ensures Inv(Step(s, a))
  {
    match a
    case Judges(i, v) => JudgesKeeps(s, i, v);
    case Starts(i, again, ok) => StartsKeeps(s, i, again, ok);
    case Watches(i, again) => WatchesKeeps(s, i, again);
    case Ends(i) => EndsKeeps(s, i);
    case Finishes(i, again) => FinishesKeeps(s, i, again);
    case WatchEnds(i) => WatchEndsKeeps(s, i);
    case Leaves(i, again) => LeavesKeeps(s, i, again);
  }

  lemma StepKeeps(s: State, a: Action)
    requires Inv(s)
    ensures Inv(Step(s, a))
  {
    if OfApprover(a) {
      ApproverKeeps(s, a);
    } else if OfFlags(a) {
      FlagsKeep(s, a);
    } else if OfLoop(a) {
      LoopKeeps(s, a);
    } else if OfPeer(a) {
      PeerKeeps(s, a.i);
    } else {
      RequestKeeps(s, a);
    }
  }

  lemma FreshKeeps(s: State)
    requires |s.tasks| == 0 && |s.approvers| == 0 && s.activeWork == 0 && s.pending.None? && s.sessions == {} && !s.committing
    ensures Inv(s)
  {
  }

  lemma {:induction false} ReachKeeps(r: Run)
    ensures Inv(Reach(r))
  {
    match r
    case Begin => FreshKeeps(Reach(r));
    case Then(before, a) =>
      ReachKeeps(before);
      StepKeeps(Reach(before), a);
  }

  // ----- what it means -----

  /** activeWork is the number of reservations that are out, in every interleaving. */
  lemma {:induction false} WorkIsCounted(r: Run)
    ensures Counted(Reach(r))
  {
    ReachKeeps(r);
  }

  /** Whatever a request has set going is covered until it ends: by a goroutine with a reservation, or by its session
      in the table. */
  lemma {:induction false} RunningIsCovered(r: Run, i: nat)
    requires i < |Reach(r).tasks| && Reach(r).tasks[i].effect.Running?
    ensures if Reach(r).tasks[i].kind.PeerTask? then i in Reach(r).sessions else Attended(Reach(r).tasks[i]) && Reach(r).activeWork > 0
  {
    ReachKeeps(r);
    if Reach(r).activeWork == 0 { ZeroIsQuiet(Reach(r)); }
  }

  /** Nothing of the request is left to be done. */
  predicate IsOver(s: State, i: nat)
    requires i < |s.tasks|
  {
    && Of(s.tasks[i]) == 0 && !s.tasks[i].hand.NoHand? && !s.tasks[i].effect.Running? && !Waits(s, i) && i !in s.sessions
  }

  /** There is no idle gap: an Agent that looks idle, even to one that does not ask whether panes are busy, has no
      request left that is not over. */
  lemma {:induction false} IdleMeansOver(r: Run, i: nat)
    requires i < |Reach(r).tasks| && Reach(r).activeWork == 0 && Reach(r).pending.None? && Reach(r).sessions == {}
    ensures IsOver(Reach(r), i)
  {
    ReachKeeps(r);
    ZeroIsQuiet(Reach(r));
  }

  lemma NobodyThere(t: Task)
    requires Of(t) == 0
    ensures t.loop.Out? && !Holds(t.hand) && !Holds(t.resumed) && !t.watch.Watching?
  {
  }

  predicate SameFor(s: State, t: State, i: nat)
    requires i < |s.tasks|
  {
    i < |t.tasks| && t.tasks[i] == s.tasks[i] && (Waits(t, i) ==> Waits(s, i)) && (i in t.sessions ==> i in s.sessions)
  }

  /** Those who handle requests pass by a request that is over. */
  lemma RequestSpares(s: State, a: Action, i: nat)
    requires i < |s.tasks| && IsOver(s, i) && !OfApprover(a) && !OfFlags(a)
    ensures SameFor(s, Step(s, a), i)
  {
    NobodyThere(s.tasks[i]);
    assert !Waits(s, i);
    match a
    case LoopJudges(j, v) => LoopSpares(s, j, v, i);
    case Judges(j, v) => JudgeSpares(s, j, v, i);
    case Starts(j, again, ok) => HandSpares(s, a, i);
    case Watches(j, again) => HandSpares(s, a, i);
    case Finishes(j, again) => HandSpares(s, a, i);
    case Leaves(j, again) => HandSpares(s, a, i);
    case _ =>
  }

  lemma HandSpares(s: State, a: Action, i: nat)
    requires i < |s.tasks| && IsOver(s, i) && (a.Starts? || a.Watches? || a.Finishes? || a.Leaves?)
    ensures SameFor(s, Step(s, a), i)
  {
    NobodyThere(s.tasks[i]);
  }

  lemma LoopSpares(s: State, j: nat, v: Verdict, i: nat)
    requires i < |s.tasks| && IsOver(s, i)
    ensures SameFor(s, LoopJudged(s, j, v), i)
  {
    NobodyThere(s.tasks[i]);
  }

  lemma JudgeSpares(s: State, j: nat, v: Verdict, i: nat)
    requires i < |s.tasks| && IsOver(s, i)
    ensures SameFor(s, HandJudged(s, j, v), i)
  {
    NobodyThere(s.tasks[i]);
  }

  lemma ApproverSpares(s: State, a: Action, i: nat)
    requires i < |s.tasks| && IsOver(s, i) && OfApprover(a)
    ensures SameFor(s, Step(s, a), i)
  {
    var t := Step(s, a);
    match a
    case Approves => assert t.approvers != s.approvers ==> t.approvers == s.approvers + [t.approvers[|s.approvers|]];
    case ApproverHands(k) =>
    case ApproverLeaves(k) =>
  }

  /** A request that is over stays over: what "until it ends" means. */
  lemma StaysOver(s: State, a: Action, i: nat)
    requires i < |s.tasks| && IsOver(s, i)
    ensures var t := Step(s, a); i < |t.tasks| && t.tasks[i] == s.tasks[i] && IsOver(t, i)
  {
    if OfApprover(a) {
      ApproverSpares(s, a, i);
    } else if OfFlags(a) {
      assert SameFor(s, Step(s, a), i);
    } else {
      RequestSpares(s, a, i);
    }
  }

  predicate Prefix(p: Run, r: Run) {
    p == r || (r.Then? && Prefix(p, r.before))
  }

  lemma {:induction false} OverForGood(p: Run, r: Run, i: nat)
    requires Prefix(p, r) && i < |Reach(p).tasks| && IsOver(Reach(p), i)
    ensures i < |Reach(r).tasks| && Reach(r).tasks[i] == Reach(p).tasks[i] && IsOver(Reach(r), i)
  {
    if p != r {
      OverForGood(p, r.before, i);
      StaysOver(Reach(r.before), r.action, i);
    }
  }

  /** While an update commits every request is over, nobody waits, and no step admits or starts anything. */
  lemma {:induction false} CommitIsUndisturbed(r: Run, a: Action)
    requires Reach(r).committing
    ensures var s := Reach(r);
      && s.activeWork == 0 && s.pending.None? && s.prompt.None? && s.sessions == {}
      && (forall i :: 0 <= i < |s.tasks| ==> IsOver(s, i))
      && Step(s, a).tasks == s.tasks && Step(s, a).approvers == s.approvers && Step(s, a).activeWork == 0
  {
    var s := Reach(r);
    ReachKeeps(r);
    ZeroIsQuiet(s);
    forall i | 0 <= i < |s.tasks| ensures IsOver(s, i) { IdleMeansOver(r, i); }
    QuietStep(s, a);
  }

  lemma QuietStep(s: State, a: Action)
    requires Inv(s) && s.committing && forall i :: 0 <= i < |s.tasks| ==> IsOver(s, i)
    requires forall k :: 0 <= k < |s.approvers| ==> s.approvers[k].Gone?
    ensures Step(s, a).tasks == s.tasks && Step(s, a).approvers == s.approvers && Step(s, a).activeWork == s.activeWork
  {
    if OfApprover(a) || OfFlags(a) || a.Dispatch? {
      QuietDesk(s, a);
    } else {
      if a.i < |s.tasks| { QuietRequest(s, a); }
    }
  }

  lemma QuietDesk(s: State, a: Action)
    requires s.committing && (OfApprover(a) || OfFlags(a) || a.Dispatch?) && forall k :: 0 <= k < |s.approvers| ==> s.approvers[k].Gone?
    ensures Step(s, a).tasks == s.tasks && Step(s, a).approvers == s.approvers && Step(s, a).activeWork == s.activeWork
  {
  }

  lemma QuietRequest(s: State, a: Action)
    requires Inv(s) && s.committing && !OfApprover(a) && !OfFlags(a) && !a.Dispatch? && a.i < |s.tasks| && IsOver(s, a.i)
    ensures Step(s, a).tasks == s.tasks && Step(s, a).approvers == s.approvers && Step(s, a).activeWork == s.activeWork
  {
    NobodyThere(s.tasks[a.i]);
    match a
    case Starts(i, again, ok) =>
    case Watches(i, again) =>
    case Finishes(i, again) =>
    case Leaves(i, again) =>
    case _ =>
  }
}
