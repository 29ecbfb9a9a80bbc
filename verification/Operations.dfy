/** Recoverable runs: one receipt per operation key, in memory and in a file that survives restarts.
    Methods are sections under the operation mutex; a crash keeps the files and nothing else. */
module Operations {
  import opened Prelude

  /** The hash of credential, caller and correlation id; and of the command. Both are injective tokens. */
  type Key = string
  type Input = string

  datatype Status = Running | DoneWith(code: int) | Unknown
  datatype Receipt = Receipt(input: Input, status: Status)

  /** A receipt file as a read finds it. */
  datatype File = Garbage | Intact(receipt: Receipt)

  /** What a failed creation of the intent file may leave behind. */
  datatype Leftover = Nothing | Partial | Whole

  datatype WriteOutcome = Written | FailedWith(left: Leftover)

  datatype Reply =
    | NotStarted            // the intent could not be persisted
    | OutcomeUnknown        // interrupted earlier, or the store cannot be read
    | Conflict              // the key was used for another command
    | StillRunning
    | Finished(code: int)
    | Launched

  /** readOperation: an interrupted intent comes back as unknown. */
  function ReadFile(f: File): Option<Receipt> {
    if f.Garbage? then None
    else Some(if f.receipt.status.DoneWith? then f.receipt else f.receipt.(status := Unknown))
  }

  function Answer(r: Receipt): Reply {
    match r.status case Running => StillRunning case DoneWith(code) => Finished(code) case Unknown => OutcomeUnknown
  }

  datatype Lookup = Absent | Unreadable | Row(receipt: Receipt)

  /** replyOperation: the pane of a run that this process still has, finished with its exit code, answers for it. */
  function Known(r: Receipt, pane: Option<int>): Reply {
    if pane.Some? && !r.status.Unknown? then Finished(pane.value) else Answer(r)
  }

  /** What a run request gets for what is known under its key. */
  function Verdict(found: Lookup, input: Input, write: WriteOutcome, pane: Option<int>): Reply {
    match found
    case Absent => if write.Written? then Launched else NotStarted
    case Unreadable => OutcomeUnknown
    case Row(r) => if r.input != input then Conflict else Known(r, pane)
  }

  /** The command of a run, and the codes it has reported so far. */
  datatype RunLog = RunLog(input: Input, codes: seq<int>)

  class OperationStore {
    var operations: map<Key, Receipt>
    var files: map<Key, File>
    /** every launch there ever was, by key; and the runs of the present process */
    ghost var launches: seq<Key>
    ghost var runs: map<Key, RunLog>
    ghost var live: set<Key>

    ghost predicate Valid()
      reads this
    {
      // at most one launch per key, and a durable intent for each
      && Distinct(launches)
      && (forall k :: k in launches ==> k in files && files[k].Intact? && k in runs && runs[k].input == files[k].receipt.input)
      // what is in memory is on disk as well
      && (forall k :: k in operations ==> k in files && files[k].Intact? && files[k].receipt.input == operations[k].input)
      // a stored code is the code of that run's own result
      && (forall k :: k in files && files[k].Intact? && files[k].receipt.status.DoneWith? ==>
            k in launches && files[k].receipt.status.code in runs[k].codes)
      && (forall k :: k in operations && operations[k].status.DoneWith? ==>
            k in launches && operations[k].status.code in runs[k].codes)
      // runs of the present process are known to it
      && (forall k :: k in live ==> k in launches && k in operations && !operations[k].status.Unknown?)
      && (forall k :: k in operations && operations[k].status.Running? ==> k in live)
      && (forall k :: k in files && files[k].Intact? ==> !files[k].receipt.status.Unknown?)
    }

    constructor ()
      ensures Valid() && launches == [] && files == map[] && runs == map[] && live == {}
    {
      operations, files, launches, runs, live := map[], map[], [], map[], {};
    }

    /** Memory first, then the file. */
    function LookUp(key: Key): Lookup
      reads this
    {
      if key in operations then Row(operations[key])
      else if key !in files then Absent
      else
        var r := ReadFile(files[key]);
        if r.None? then Unreadable else Row(r.value)
    }

    /** handleRecoverableRun up to the launch. */
    method HandleRun(key: Key, input: Input, write: WriteOutcome, pane: Option<int>) returns (reply: Reply)
      requires Valid()
      modifies this
      ensures Valid()
      ensures reply == Verdict(old(LookUp(key)), input, write, pane)
      ensures runs == if reply.Launched? then old(runs)[key := RunLog(input, [])] else old(runs)
      ensures live == if reply.Launched? then old(live) + {key} else old(live)
      ensures launches == if reply.Launched? then old(launches) + [key] else old(launches)
      ensures reply.Launched? ==> key !in old(launches)
      ensures reply.Launched? ==> files == old(files)[key := Intact(Receipt(input, Running))]
      ensures reply.Finished? ==> key in launches && runs == old(runs) && runs[key].input == input
      ensures reply.Finished? ==>
        reply.code in runs[key].codes || (pane == Some(reply.code) && (key in live || runs[key].codes != []))
      ensures reply.StillRunning? ==> key in live && key in launches && runs[key].input == input
      ensures old(key in operations || key in files) ==> files == old(files) && live == old(live)
    {
      var row: Option<Receipt> := None;
      if key in operations {
        row := Some(operations[key]);
      } else if key in files {
        row := ReadFile(files[key]);
        if row.None? { return OutcomeUnknown; }
      }
      if row.Some? {
        Remember(key, row.value);
        if row.value.input != input { return Conflict; }
        return Known(row.value, pane);
      }
      if write.FailedWith? {
        LeaveBehind(key, input, write.left);
        return NotStarted;
      }
      Launch(key, input);
      return Launched;
    }

    /** The receipt that was found stays in memory. */
    method Remember(key: Key, row: Receipt)
      requires Valid() && LookUp(key) == Row(row)
      modifies `operations
      ensures Valid() && operations == old(operations)[key := row]
    {
      operations := operations[key := row];
    }

    /** The intent could not be written: nothing, garbage or all of it may be there. */
    method LeaveBehind(key: Key, input: Input, left: Leftover)
      requires Valid() && key !in files
      modifies `files
      ensures Valid() && operations == old(operations)
    {
      match left {
        case Nothing =>
        case Partial => files := files[key := Garbage];
        case Whole => files := files[key := Intact(Receipt(input, Running))];
      }
    }

    /** The intent is on disk, and the command starts. */
    method Launch(key: Key, input: Input)
      requires Valid() && key !in files && key !in operations
      modifies this
      ensures Valid() && key !in old(launches) && launches == old(launches) + [key] && runs == old(runs)[key := RunLog(input, [])]
      ensures files == old(files)[key := Intact(Receipt(input, Running))] && live == old(live) + {key}
    {
      var receipt := Receipt(input, Running);
      files, operations := files[key := Intact(receipt)], operations[key := receipt];
      assert key !in launches;
      launches, runs, live := launches + [key], runs[key := RunLog(input, [])], live + {key};
    }

    /** The tracked sink sees a result; the completion may fail to reach the disk. A result without a code
        leaves the code that is there, zero at first. */
    method ReportResult(key: Key, code: Option<int>, persisted: bool)
      requires Valid() && key in live
      modifies this
      ensures Valid() && launches == old(launches) && live == old(live)
      ensures key in operations && operations[key].status.DoneWith? && operations[key].input == old(operations[key].input)
      ensures code.Some? ==> operations[key].status.code == code.value
      ensures code.None? ==> operations[key].status.code == (if old(operations[key]).status.DoneWith? then old(operations[key]).status.code else 0)
      ensures runs == old(runs)[key := old(runs)[key].(codes := old(runs)[key].codes + [operations[key].status.code])]
      ensures files == if persisted then old(files)[key := Intact(operations[key])] else old(files)
    {
      var kept := if operations[key].status.DoneWith? then operations[key].status.code else 0;
      var now := if code.Some? then code.value else kept;
      runs := runs[key := runs[key].(codes := runs[key].codes + [now])];
      operations := operations[key := operations[key].(status := DoneWith(now))];
      if persisted { files := files[key := Intact(operations[key])]; }
    }

    /** The process ends; files stay. */
    method Crash()
      requires Valid()
      modifies this
      ensures Valid() && files == old(files) && launches == old(launches) && runs == old(runs) && operations == map[] && live == {}
    {
      operations, live := map[], {};
    }

    /** After a restart an interrupted intent is answered as unknown, and never launched again. */
    method RetryAfterCrash(key: Key, input: Input, write: WriteOutcome, pane: Option<int>) returns (reply: Reply)
      requires Valid() && key in launches && files[key].receipt.status.Running? && files[key].receipt.input == input
      modifies this
      ensures Valid() && reply.OutcomeUnknown? && launches == old(launches)
    {
      Crash();
      reply := HandleRun(key, input, write, pane);
    }
  }

  // ----- whatever happens -----

  /** Requests, results and restarts, in any order. */
  datatype Event =
    | Request(key: Key, input: Input, write: WriteOutcome, pane: Option<int>)
    | Report(key: Key, code: Option<int>, persisted: bool)
    | Restart

  /** The event launched the command. */
  predicate Launches(events: seq<Event>, replies: seq<Option<Reply>>, i: nat)
    requires |replies| <= |events|
  {
    i < |replies| && events[i].Request? && replies[i] == Some(Launched)
  }

  /** By event `n` an earlier one has launched this very command. */
  ghost predicate Explains(events: seq<Event>, replies: seq<Option<Reply>>, n: nat, k: Key, input: Input)
    requires n <= |replies| <= |events|
  {
    exists i :: 0 <= i < n && Launches(events, replies, i) && events[i].key == k && events[i].input == input
  }

  /** And the process has not been restarted since. */
  ghost predicate LiveAt(events: seq<Event>, replies: seq<Option<Reply>>, n: nat, k: Key)
    requires n <= |replies| <= |events|
  {
    exists i :: 0 <= i < n && Launches(events, replies, i) && events[i].key == k && forall m :: i < m < n ==> !events[m].Restart?
  }

  /** A result of the run with this code, reported by the process that launched it; a first result without a code
      counts as zero. */
  ghost predicate Reported(events: seq<Event>, replies: seq<Option<Reply>>, n: nat, k: Key, code: int)
    requires n <= |replies| <= |events|
  {
    exists r :: 0 <= r < n && events[r].Report? && events[r].key == k && LiveAt(events, replies, r, k)
                && (events[r].code == Some(code) || (code == 0 && events[r].code == None))
  }

  ghost predicate SomeReported(events: seq<Event>, replies: seq<Option<Reply>>, n: nat, k: Key)
    requires n <= |replies| <= |events|
  {
    exists code :: Reported(events, replies, n, k, code)
  }

  /** What was answered at `j` is true to what happened before it. A run that a restart interrupted before it reported
      is neither running nor finished. */
  ghost predicate Truthful(events: seq<Event>, replies: seq<Option<Reply>>, j: nat)
    requires j < |replies| <= |events|
  {
    replies[j].Some? && (replies[j].value.Finished? || replies[j].value.StillRunning?) ==>
      && events[j].Request? && Explains(events, replies, j, events[j].key, events[j].input)
      && (replies[j].value.StillRunning? ==> LiveAt(events, replies, j, events[j].key))
      && (replies[j].value.Finished? ==>
            || Reported(events, replies, j, events[j].key, replies[j].value.code)
            || (events[j].pane == Some(replies[j].value.code)
                && (LiveAt(events, replies, j, events[j].key) || SomeReported(events, replies, j, events[j].key))))
  }

  /** The books of the store against the log of events. */
  ghost predicate Agrees(events: seq<Event>, replies: seq<Option<Reply>>, launches: seq<Key>, runs: map<Key, RunLog>, live: set<Key>) {
    && |replies| <= |events|
    && (forall i :: 0 <= i < |replies| && Launches(events, replies, i) ==> events[i].key in launches)
    && (forall i, j :: 0 <= i < j < |replies| && Launches(events, replies, i) && Launches(events, replies, j) ==> events[i].key != events[j].key)
    && (forall k :: k in launches ==> k in runs && Explains(events, replies, |replies|, k, runs[k].input))
    && (forall k :: k in live ==> LiveAt(events, replies, |replies|, k))
    && (forall k, c :: k in runs && c in runs[k].codes ==> Reported(events, replies, |replies|, k, c))
    && (forall j :: 0 <= j < |replies| ==> Truthful(events, replies, j))
  }

  lemma OlderLive(events: seq<Event>, replies: seq<Option<Reply>>, reply: Option<Reply>, n: nat, k: Key)
    requires |replies| < |events| && n <= |replies|
    ensures LiveAt(events, replies, n, k) <==> LiveAt(events, replies + [reply], n, k)
    ensures forall input :: Explains(events, replies, n, k, input) <==> Explains(events, replies + [reply], n, k, input)
  {
    var more := replies + [reply];
    assert forall i :: 0 <= i < n ==> (Launches(events, more, i) <==> Launches(events, replies, i));
  }

  lemma OlderReported(events: seq<Event>, replies: seq<Option<Reply>>, reply: Option<Reply>, n: nat, k: Key, code: int)
    requires |replies| < |events| && n <= |replies|
    ensures Reported(events, replies, n, k, code) <==> Reported(events, replies + [reply], n, k, code)
  {
    forall r | 0 <= r < n ensures LiveAt(events, replies, r, k) <==> LiveAt(events, replies + [reply], r, k) {
      OlderLive(events, replies, reply, r, k);
    }
  }

  lemma OlderTruthful(events: seq<Event>, replies: seq<Option<Reply>>, reply: Option<Reply>, j: nat)
    requires |replies| < |events| && j < |replies| && Truthful(events, replies, j)
    ensures Truthful(events, replies + [reply], j)
  {
    if replies[j].Some? && events[j].Request? {
      OlderLive(events, replies, reply, j, events[j].key);
      forall code ensures Reported(events, replies, j, events[j].key, code) <==> Reported(events, replies + [reply], j, events[j].key, code) {
        OlderReported(events, replies, reply, j, events[j].key, code);
      }
      if SomeReported(events, replies, j, events[j].key) {
        var code :| Reported(events, replies, j, events[j].key, code);
        assert Reported(events, replies + [reply], j, events[j].key, code);
      }
    }
  }

  /** One event later: what was explained or reported still is, and what was live is unless the event restarts. */
  lemma Later(events: seq<Event>, replies: seq<Option<Reply>>, reply: Option<Reply>)
    requires |replies| < |events|
    ensures var more, n := replies + [reply], |replies|;
      && (forall i :: 0 <= i < n ==> (Launches(events, more, i) <==> Launches(events, replies, i)))
      && (forall k, input :: Explains(events, replies, n, k, input) ==> Explains(events, more, n + 1, k, input))
      && (forall k :: LiveAt(events, replies, n, k) && !events[n].Restart? ==> LiveAt(events, more, n + 1, k))
      && (forall k, code :: Reported(events, replies, n, k, code) ==> Reported(events, more, n + 1, k, code))
      && (forall j :: 0 <= j < n && Truthful(events, replies, j) ==> Truthful(events, more, j))
  {
    var more, n := replies + [reply], |replies|;
    assert forall i :: 0 <= i < n ==> (Launches(events, more, i) <==> Launches(events, replies, i));
    forall k, code | Reported(events, replies, n, k, code) ensures Reported(events, more, n + 1, k, code) {
      OlderReported(events, replies, reply, n, k, code);
      var r :| 0 <= r < n && events[r].Report? && events[r].key == k && LiveAt(events, more, r, k)
               && (events[r].code == Some(code) || (code == 0 && events[r].code == None));
      assert LiveAt(events, more, r, k);
    }
    forall j | 0 <= j < n && Truthful(events, replies, j) ensures Truthful(events, more, j) {
      OlderTruthful(events, replies, reply, j);
    }
  }

  lemma LaunchAgrees(events: seq<Event>, replies: seq<Option<Reply>>, launches: seq<Key>, runs: map<Key, RunLog>, live: set<Key>)
    requires Agrees(events, replies, launches, runs, live) && |replies| < |events|
    requires events[|replies|].Request? && events[|replies|].key !in launches
    ensures var e := events[|replies|];
            Agrees(events, replies + [Some(Launched)], launches + [e.key], runs[e.key := RunLog(e.input, [])], live + {e.key})
  {
    Later(events, replies, Some(Launched));
    var n, more := |replies|, replies + [Some(Launched)];
    assert Launches(events, more, n);
    assert Explains(events, more, n + 1, events[n].key, events[n].input);
    assert LiveAt(events, more, n + 1, events[n].key);
  }

  /** A reply that launches nothing. */
  lemma ReplyAgrees(events: seq<Event>, replies: seq<Option<Reply>>, launches: seq<Key>, runs: map<Key, RunLog>, live: set<Key>, reply: Option<Reply>)
    requires Agrees(events, replies, launches, runs, live) && |replies| < |events| && reply != Some(Launched)
    requires events[|replies|].Restart? ==> live == {}
    requires reply.Some? && (reply.value.Finished? || reply.value.StillRunning?) ==>
      var e := events[|replies|]; e.Request? && e.key in launches && runs[e.key].input == e.input
                                  && (reply.value.StillRunning? ==> e.key in live)
    requires reply.Some? && reply.value.Finished? ==>
      var e := events[|replies|];
      reply.value.code in runs[e.key].codes || (e.pane == Some(reply.value.code) && (e.key in live || runs[e.key].codes != []))
    ensures Agrees(events, replies + [reply], launches, runs, live)
  {
    Later(events, replies, reply);
    NewTruthful(events, replies, launches, runs, live, reply);
  }

  lemma NewTruthful(events: seq<Event>, replies: seq<Option<Reply>>, launches: seq<Key>, runs: map<Key, RunLog>, live: set<Key>, reply: Option<Reply>)
    requires Agrees(events, replies, launches, runs, live) && |replies| < |events|
    requires reply.Some? && (reply.value.Finished? || reply.value.StillRunning?) ==>
      var e := events[|replies|]; e.Request? && e.key in launches && runs[e.key].input == e.input
                                  && (reply.value.StillRunning? ==> e.key in live)
    requires reply.Some? && reply.value.Finished? ==>
      var e := events[|replies|];
      reply.value.code in runs[e.key].codes || (e.pane == Some(reply.value.code) && (e.key in live || runs[e.key].codes != []))
    ensures Truthful(events, replies + [reply], |replies|)
  {
    var n := |replies|;
    if reply.Some? && (reply.value.Finished? || reply.value.StillRunning?) {
      var k := events[n].key;
      OlderLive(events, replies, reply, n, k);
      forall code | code in runs[k].codes ensures Reported(events, replies + [reply], n, k, code) {
        OlderReported(events, replies, reply, n, k, code);
      }
      if runs[k].codes != [] { assert Reported(events, replies + [reply], n, k, runs[k].codes[0]); }
    }
  }

  lemma ReportAgrees(events: seq<Event>, replies: seq<Option<Reply>>, launches: seq<Key>, runs: map<Key, RunLog>, live: set<Key>, key: Key, code: int)
    requires Agrees(events, replies, launches, runs, live) && |replies| < |events| && key in runs && key in live
    requires events[|replies|].Report? && events[|replies|].key == key
    requires events[|replies|].code == Some(code) || (events[|replies|].code.None? && (code == 0 || code in runs[key].codes))
    ensures Agrees(events, replies + [None], launches, runs[key := runs[key].(codes := runs[key].codes + [code])], live)
  {
    var n, more := |replies|, replies + [None];
    Later(events, replies, None);
    OlderLive(events, replies, None, n, key);
    assert Reported(events, more, n + 1, key, code) by {
      assert code in runs[key].codes || (events[n].Report? && LiveAt(events, more, n, key));
    }
    NewTruthful(events, replies, launches, runs, live, None);
  }

  /** Any sequence of events from an empty store on: no two of them launch for the same key; and a run is answered as
      running only by the process that launched it, and as finished only with a code that process reported, or that of
      its pane. */
  method Play(events: seq<Event>) returns (replies: seq<Option<Reply>>)
    ensures |replies| == |events|
    ensures forall i, j :: 0 <= i < j < |events| && Launches(events, replies, i) && Launches(events, replies, j) ==> events[i].key != events[j].key
    ensures forall j :: 0 <= j < |events| ==> Truthful(events, replies, j)
  {
    var store := new OperationStore();
    var here: set<Key> := {};
    replies := [];
    for n := 0 to |events|
      invariant store.Valid() && |replies| == n && fresh(store) && here == store.live
      invariant Agrees(events, replies, store.launches, store.runs, store.live)
    {
      ghost var launches, runs, live := store.launches, store.runs, store.live;
      match events[n] {
        case Request(key, input, write, pane) =>
          var r := store.HandleRun(key, input, write, pane);
          if r.Launched? {
            here := here + {key};
            LaunchAgrees(events, replies, launches, runs, live);
          } else {
            ReplyAgrees(events, replies, launches, runs, live, Some(r));
          }
          replies := replies + [Some(r)];
        case Report(key, code, persisted) =>
          if key in here {
            store.ReportResult(key, code, persisted);
            ReportAgrees(events, replies, launches, runs, live, key, store.operations[key].status.code);
          } else {
            ReplyAgrees(events, replies, launches, runs, live, None);
          }
          replies := replies + [None];
        case Restart =>
          store.Crash();
          here := {};
          ReplyAgrees(events, replies, launches, runs, {}, None);
          replies := replies + [None];
      }
    }
  }
}
