/** A result query that follows a run on the wire is never told "unknown", although each is handled by a
    goroutine of its own. One operation key; the process does not crash. */
module OperationQuery {
  import opened Prelude

  datatype Status = Running | Done | Unknown

  /** The goroutine of a run: admitted on the control loop, then handled under the operation mutex, then
      its admission is released. */
  datatype RunPc = Admitted | Handled | Released

  /** A query takes a snapshot of the admissions first and looks for the receipt second. `after` says
      that it was dispatched after some run was admitted. */
  datatype QueryPc = Dispatched(after: bool) | Snapped(after: bool, admitted: bool) | Answered(after: bool, reply: Status)

  /** `earlier` is what a file from before holds; an unreadable file also answers unknown. */
  datatype File = NoFile | Unreadable | Row(status: Status)

  datatype State = State(memory: Option<Status>, file: File, admissions: int, runs: seq<RunPc>, queries: seq<QueryPc>, allWritten: bool)

  datatype Action =
    | Admit | Handle(i: nat, written: bool) | Report | Release(i: nat)
    | Ask | Snap(j: nat) | Look(j: nat)

  function Start(file: File): State {
    State(None, file, 0, [], [], true)
  }

  /** handleRecoverableRun: an existing receipt is kept; otherwise the intent is written. */
  function Handled1(s: State, i: nat, written: bool): State {
    if i >= |s.runs| || !s.runs[i].Admitted? then s
    else
      var t := s.(runs := s.runs[i := Handled]);
      if s.memory.Some? || s.file.Unreadable? then t
      else if s.file.Row? then t.(memory := Some(s.file.status))
      else if written then t.(memory := Some(Running), file := Row(Running))
      else t.(allWritten := false)
  }

  /** operationEnv for what was found. */
  function Reply(s: State, admitted: bool): Status {
    if s.memory.Some? then s.memory.value
    else if s.file.Unreadable? then Unknown
    else if s.file.Row? then (if s.file.status.Done? then Done else Unknown)
    else if admitted then Running
    else Unknown
  }

  function Step(s: State, a: Action): State {
    match a
    case Admit => s.(runs := s.runs + [Admitted], admissions := s.admissions + 1)
    case Handle(i, written) => Handled1(s, i, written)
    case Report => if s.memory == Some(Running) then s.(memory := Some(Done)) else s
    case Release(i) =>
      if i < |s.runs| && s.runs[i].Handled? then s.(runs := s.runs[i := Released], admissions := s.admissions - 1) else s
    case Ask => s.(queries := s.queries + [Dispatched(s.runs != [])])
    case Snap(j) =>
      if j < |s.queries| && s.queries[j].Dispatched?
      then s.(queries := s.queries[j := Snapped(s.queries[j].after, s.admissions > 0)]) else s
    case Look(j) =>
      if j < |s.queries| && s.queries[j].Snapped?
      then s.(queries := s.queries[j := Answered(s.queries[j].after, Reply(s, s.queries[j].admitted))]) else s
  }

  datatype Trace = Begin(file: File) | Then(before: Trace, action: Action)

  function Reach(t: Trace): State {
    match t
    case Begin(file) => Start(file)
    case Then(before, action) => Step(Reach(before), action)
  }

  // ----- admissions count the runs that are not released -----

  function Unreleased(runs: seq<RunPc>): nat {
    if |runs| == 0 then 0 else Unreleased(runs[..|runs| - 1]) + (if runs[|runs| - 1].Released? then 0 else 1)
  }

  lemma {:induction false} UnreleasedUpdate(runs: seq<RunPc>, i: nat, pc: RunPc)
    requires i < |runs|
    ensures Unreleased(runs[i := pc]) == Unreleased(runs) - (if runs[i].Released? then 0 else 1) + (if pc.Released? then 0 else 1)
  {
    var n := |runs| - 1;
    if i == n {
      assert runs[i := pc][..n] == runs[..n];
    } else {
      assert runs[i := pc][..n] == runs[..n][i := pc];
      UnreleasedUpdate(runs[..n], i, pc);
    }
  }

  lemma UnreleasedMore(runs: seq<RunPc>, pc: RunPc)
    ensures Unreleased(runs + [pc]) == Unreleased(runs) + (if pc.Released? then 0 else 1)
  {
    assert (runs + [pc])[..|runs|] == runs;
  }

  lemma {:induction false} NoneUnreleased(runs: seq<RunPc>, i: nat)
    requires Unreleased(runs) == 0 && i < |runs|
    ensures runs[i].Released?
  {
    if i < |runs| - 1 { NoneUnreleased(runs[..|runs| - 1], i); }
  }

  predicate Found(s: State) {
    s.memory.Some? && !s.memory.value.Unknown?
  }

  /** Provided no intent write failed on a key that had no file. */
  predicate Inv(s: State) {
    && s.admissions == Unreleased(s.runs)
    && (forall i :: 0 <= i < |s.runs| && !s.runs[i].Admitted? ==> Found(s))
    && (s.memory.None? ==> s.file.NoFile?)
    && (s.memory.Some? ==> Found(s))
    && (forall j :: 0 <= j < |s.queries| && s.queries[j].after ==> s.runs != [])
    && (forall j :: 0 <= j < |s.queries| && s.queries[j].Snapped? && s.queries[j].after ==> s.queries[j].admitted || Found(s))
    && (forall j :: 0 <= j < |s.queries| && s.queries[j].Answered? && s.queries[j].after ==> !s.queries[j].reply.Unknown?)
  }

  lemma StepKeeps(s: State, a: Action)
    requires Inv(s) && Step(s, a).allWritten
    ensures Inv(Step(s, a))
  {
    match a
    case Admit => UnreleasedMore(s.runs, Admitted);
    case Handle(i, written) => if i < |s.runs| { UnreleasedUpdate(s.runs, i, Handled); }
    case Release(i) => if i < |s.runs| { UnreleasedUpdate(s.runs, i, Released); }
    case Snap(j) => if s.admissions <= 0 && s.runs != [] { NoneUnreleased(s.runs, 0); }
    case _ =>
  }

  lemma {:induction false} ReachKeeps(t: Trace)
    requires Reach(t).allWritten && Origin(t).NoFile?
    ensures Inv(Reach(t))
  {
    match t
    case Begin(file) =>
    case Then(before, action) =>
      ReachKeeps(before);
      StepKeeps(Reach(before), action);
  }

  function Origin(t: Trace): File {
    match t case Begin(file) => file case Then(before, _) => Origin(before)
  }

  /** On a key without an earlier receipt, and with every intent written, a query dispatched after a run
      was admitted is never answered unknown, in any interleaving. */
  lemma {:induction false} QueryAfterRunIsKnown(t: Trace, j: nat)
    requires Origin(t).NoFile? && Reach(t).allWritten && AnsweredAfter(Reach(t), j)
    ensures !Reach(t).queries[j].reply.Unknown?
  {
    ReachKeeps(t);
  }

  predicate AnsweredAfter(s: State, j: nat) {
    j < |s.queries| && s.queries[j].Answered? && s.queries[j].after
  }
}
