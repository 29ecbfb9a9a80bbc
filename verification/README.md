# Fleet peer sessions, executions and updates, verified

Fleet lets a tool (an AI operator) run commands and plugins on devices. Two plugins on two endpoints can also talk to
each other directly. This project models, in Dafny, the parts of Fleet where order and failure matter most:

- **The Hub's peer session** (`PeerHub*`, `PeerDeliveryNames`, `PeerSession*`). A durable object holds one session record
  (phase, up to four rounds, approvals, signals, a signed ticket), an at-least-once outbox, a mailbox for each tool, and
  an alarm. `PeerHubSteps` gives every storage transaction as a function, `PeerHubRun` runs them in any order together
  with the errands that leave the object and come back late. `PeerSessionDO.Session` is the object itself: it carries
  the run it is on, every call moves it along that run by one action, and so every theorem over runs is a promise of
  the object (`Promises`).
- **The Agent's peer session** (`PeerLifecycle*`, `PeerHandshake`, `PeerData`, `PeerEpochs`, `PeerBooks`, `PeerProcess`).
  `PeerLifecycle` has the goroutines of a session as program counters: start, slow Open writes, the retiring of an
  epoch, the closer, cleanup, retries and recovery interleave freely. `PeerProcess` does the same for the stop of one
  plugin process and is proved to be the process of that model. The handshake is a model of two such endpoints. The data
  path, the identity checks of late callbacks and the bounded indexes are classes.
- **Executing once** (`Operations`, `OperationQuery`, `InvocationStore`, `Invocations`, `InvocationRuns`), **admission
  against the automatic update** (`WorkGuard`), **the plugin manifest** (`PluginManifest`) and **the record framing**
  between the Agent and a plugin (`PeerWire`).

`Prelude` has the shared vocabulary. Check everything with `dafny verify dfyconfig.toml`.

## What the model takes for granted

- Hashes, fingerprints, signatures and nonces are tokens that are equal only when what they stand for is. Round ids drawn
  by the Hub are new. The channel between two peers keeps order and loses nothing.
- The Hub reads its clock once in a transaction, and time does not run backwards. A deleted session is not created again
  under its id. What leaves the object (a signature, a push) may return late, and more than once.
- A method of the Agent classes, and a step of its machines, is one section under a mutex, or one blocking call between
  two sections.
- `int` is 64 bits wide where the Agent reads lengths.

## What turned out to be false, and exactly when

- *No delivery id is issued twice.* An interrupt of round four by the endpoint that opened round four issues both its ids
  again, and only it does (`ReuseIffLimitEcho`, `EchoHappens`). If the first notice still lies in a tool's mailbox, the
  second, which says that the session failed, is dropped on its way there (`LimitNoticeReachesTool`).
- *Honest endpoints never reject each other.* An endpoint rejects its peer in exactly two cases: it reads the peer's
  ready after its own bindings were sent and before their flag is set (`RaceHappens`), or the next message does not fit
  its inbox, which takes DATA that outruns its reader (`RejectsIffRaceOrOverflow`, `OverflowNeedsData`, `OverflowHappens`).
- *A read lock is held while a plugin of the session lives.* It is, unless the first Open of the session failed or timed
  out and both goroutines that held the lock have let go before the process was stopped (`LockCoversLive`,
  `GapHappens`); the stop is then under way (`GapIsBeingClosed`).
- *A cancel receipt means nothing is owed.* A plugin that took Open is owed a Cancel until it, or one that took Open
  after it, has taken one. Once a receipt is published or certain, something is owed if and only if some plugin took Open
  and cancelApplied was never set; that takes the Hub to have ended the session (`ReceiptExactly`,
  `TerminalReceiptHappens`).
- *A cancellation is acknowledged to the Hub only when nothing is owed.* The same holds, unless a replayed prepare took
  the debt over before the flags were read: then something is owed if and only if the debt was owing when it was handed
  over, and the Hub need not have ended the session (`HubAckExactly`, `HandOverAckHappens`).
- *pluginPeerAction accepts the declared triples only.* With a peer runtime it also accepts an empty role with an empty
  action (`PeerActionIsDeclared`, `BlankAccepted`).
- *A handled delivery is remembered.* It is, unless two connections handle it and it is the oldest of a full order when
  the second does (`PeerBooks.Books.Remember`, `TwoConnections`).
- *The end of a plugin's output is told from a record that was cut off.* A stream that stops right behind a header also
  reads as a clean end (`PeerWire.Pipe.ReadRecord`, `CutOffHappens`).

## Model

| member | source | states |
|---|---|---|
| PeerHubInvariant.NewRecordKeeps | packages/fleet-worker/src/peer-session.ts:825-854 | a new record is coupled: phase, approvals, hashes, round state, ticket and stamps agree |
| PeerHubInvariant.AuthorizeKeeps | packages/fleet-worker/src/peer-session.ts:423-447 | an accepted approval keeps the coupling; signaling needs both approvals of the current round |
| PeerHubInvariant.SignalKeeps | packages/fleet-worker/src/peer-session.ts:457-499 | an accepted signal keeps the coupling; connecting needs an answered round with both fingerprints |
| PeerHubInvariant.ActiveKeeps | packages/fleet-worker/src/peer-session.ts:517-527 | an active event keeps it; active needs a ticket and both active stamps |
| PeerHubInvariant.CompleteKeeps | packages/fleet-worker/src/peer-session.ts:528-547 | a complete event keeps it; completed without a ticket is possible and allowed for |
| PeerHubInvariant.InterruptKeeps | packages/fleet-worker/src/peer-session.ts:548-577 | an interrupt keeps it: rounds stay in 1 to 4, nothing of the old round stays behind, and interrupted is not stored |
| PeerHubInvariant.ApplyKeeps | packages/fleet-worker/src/peer-session.ts:417-583 | every accepted request of every kind keeps the coupling |
| PeerHubEvolution.ApplyEvolves | packages/fleet-worker/src/peer-session.ts:417-583 | over one request: session hashes once set never change, an answered round is frozen, terminal phases only expire |
| PeerHubEvolution.EvolvesTransitive | packages/fleet-worker/src/peer-session.ts:417-614 | that order composes, so it holds over any number of steps |
| PeerHubEvolution.SnapshotStaysTrue | packages/fleet-worker/src/peer-session.ts:215-273 | a statement built from an old snapshot certifies every later record of the same round |
| PeerHubEvolution.ReadyIsComplete | packages/fleet-worker/src/peer-session.ts:1080-1087 | a record that wants a ticket has all the hashes and fingerprints a statement needs |
| PeerHubSafety.RunKeeps | packages/fleet-worker/src/peer-session.ts:325-780 | in every reachable state of every run the record, errands, outbox, mailboxes, committed tickets and alarm satisfy their invariants |
| PeerHubSafety.CommitKeeps | packages/fleet-worker/src/peer-session.ts:713-746 | committing a ticket keeps them all, and is the only commit of its round |
| PeerHubSafety.AlarmKeeps | packages/fleet-worker/src/peer-session.ts:592-614 | expiry keeps them all |
| PeerHubSafety.DropDistinct | packages/fleet-worker/src/peer-session.ts:748-756 | acknowledging an id removes exactly that entry |
| PeerHubSafety.PostponeKeeps | packages/fleet-worker/src/peer-session.ts:758-771 | backing off changes neither the ids of the outbox nor their order |
| PeerHubTheorems.RunEvolves | packages/fleet-worker/src/peer-session.ts:417-746 | between any two moments of a run the record evolves in that order |
| PeerHubTheorems.TicketNeverStale | packages/fleet-worker/src/peer-session.ts:713-746 | a stored ticket certifies the very record it is stored in, and no round commits two |
| PeerHubTheorems.SignerAnswerIsCurrent | packages/fleet-worker/src/peer-session.ts:713-746 | whatever ran in the meantime, the answer of the signer that is committed certifies the present record |
| PeerHubTheorems.QueuesAccounted | packages/fleet-worker/src/peer-session.ts:629-688 | outbox and mailboxes are bounded, and a ticket that is still wanted has its job queued |
| PeerHubTheorems.EarliestDueIsLeast | packages/fleet-worker/src/peer-session.ts:1089-1097 | the due time that the alarm is set from is that of the earliest queued entry |
| PeerHubTheorems.AlarmCoversEverything | packages/fleet-worker/src/peer-session.ts:1089-1097 | the alarm is never later than an entry or the expiry, and never earlier than all of them, clamped to one tick after the last write |
| PeerHubTheorems.ToolDeliveryConserved | packages/fleet-worker/src/peer-session.ts:649-688 | a tool delivery leaves the outbox into its mailbox, or when its round or session ends |
| PeerHubTheorems.MailLeavesByAckOnly | packages/fleet-worker/src/peer-session.ts:366-380 | mail leaves a mailbox only by an acknowledgement of its own endpoint |
| PeerHubDeliveries.ApplyMints | packages/fleet-worker/src/peer-session.ts:457-583 | what a request posts has ids that the record had not used, except at the round limit |
| PeerHubDeliveries.RunIssued | packages/fleet-worker/src/peer-session.ts:1017-1063 | in every run the ids issued so far are those the record accounts for, and repeat only by the echo |
| PeerHubDeliveries.IdsIssuedOnce | packages/fleet-worker/src/peer-session.ts:1017-1063 | an id issued twice in a run is one of the two of the round-limit echo |
| PeerHubDeliveries.ReuseIffLimitEcho | packages/fleet-worker/src/peer-session.ts:548-577 | an accepted request reuses an id if and only if it interrupts round four from the endpoint that opened it |
| PeerHubDeliveries.PostedIsQueued | packages/fleet-worker/src/peer-session.ts:1061-1063 | nothing posted is swallowed by the duplicate check of the outbox |
| PeerHubLimit.EchoHappens | packages/fleet-worker/src/peer-session.ts:548-577 | a run in which an id is issued twice |
| PeerHubLimit.LimitNoticeReachesTool | packages/fleet-worker/src/peer-session.ts:669-688 | the failure notice reaches the tool's mailbox exactly if its id is not there yet and there is room |
| PeerDeliveryNames.NameInjective | packages/fleet-worker/src/peer-session.ts:1058-1060 | two ids are the same string only if they are the same id of the same session |
| PeerDeliveryNames.JoinInjective | packages/fleet-worker/src/peer-session.ts:1058-1060 | fields without colons are recovered from their joined string |
| PeerHubProgress.ApplyProgress | packages/fleet-worker/src/peer-session.ts:417-583 | every accepted request leaves the record alone or brings it strictly forward |
| PeerHubProgress.FinitelyManyChanges | packages/fleet-worker/src/peer-session.ts:417-746 | in no run does the record change more often than a constant |
| PeerHubProgress.ReplayStutters | packages/fleet-worker/src/peer-session.ts:457-499 | a signal forwarded once is at any later time refused or changes nothing, even when its receipt is gone |
| PeerSessionDO.Session.FetchCreate | packages/fleet-worker/src/peer-session.ts:330-361 | the call moves the object along a run by exactly this creation; on success the session exists with this very intent, and a repeat or an error changes nothing |
| PeerSessionDO.Session.FetchAuthorize | packages/fleet-worker/src/peer-session.ts:417-449 | along the run by exactly this approval; on success it stands for this round with these hashes, the record has evolved and come forward; an error changes nothing |
| PeerSessionDO.Session.FetchSignal | packages/fleet-worker/src/peer-session.ts:451-501 | along the run by exactly this signal; on success the record is as it was or the round has heard the number; an error changes nothing |
| PeerSessionDO.Session.FetchEvent | packages/fleet-worker/src/peer-session.ts:503-580 | along the run by exactly this event; on success the record stays or comes strictly forward, an interrupt opens the next round with nothing of the old one queued or ends the session; an error changes nothing |
| PeerSessionDO.Session.FetchPoll | packages/fleet-worker/src/peer-session.ts:366-380 | the answer is the caller's own mailbox without what it acknowledged, and the other mailbox is not touched |
| PeerSessionDO.Session.FetchDeviceAck | packages/fleet-worker/src/peer-session.ts:381-416 | on success exactly the acknowledged delivery has left the outbox |
| PeerSessionDO.Session.HandleAlarm | packages/fleet-worker/src/peer-session.ts:592-614 | afterwards a session past its expiry is expired and without a ticket, or gone |
| PeerSessionDO.Session.TicketArrives | packages/fleet-worker/src/peer-session.ts:713-746 | whatever ran since the snapshot was taken, the ticket stored now certifies the record as it is now, and it is stored if the round still wants it |
| PeerSessionDO.Session.MailArrives | packages/fleet-worker/src/peer-session.ts:669-688 | a delivery that was queued is in the mailbox of its side and not queued any more, or nothing changed |
| PeerSessionDO.Session.JobDropped | packages/fleet-worker/src/peer-session.ts:748-756 | exactly the settled job leaves the outbox |
| PeerSessionDO.Session.Postponed | packages/fleet-worker/src/peer-session.ts:758-771 | the entry waits between one and thirty seconds more, and the others are as they were |
| PeerSessionDO.Session.Rearmed | packages/fleet-worker/src/peer-session.ts:773-779 | the alarm covers everything that is queued |
| PeerSessionDO.Session.Promises | packages/fleet-worker/src/peer-session.ts:325-780 | what holds in every run holds of the object: its ticket certifies its record, a wanted ticket has its job queued, queues are bounded and the alarm covers them |
| PeerSessionDO.EnqueueUpdates | packages/fleet-worker/src/peer-session.ts:1017-1037 | the loop over the sides queues one notice for each, or for each device |
| PeerSessionDO.MinDue | packages/fleet-worker/src/peer-session.ts:1089-1097 | the loop finds the earliest due time |
| PeerSessionDO.BackOff | packages/fleet-worker/src/peer-session.ts:758-771 | the loop postpones the one entry of the id and leaves the others |
| PeerSessionDO.WithoutId | packages/fleet-worker/src/peer-session.ts:748-756 | the loop drops one id and keeps the order |
| PeerSessionDO.LookUp | packages/fleet-worker/src/peer-session.ts:457-480 | the first receipt with the id of the signal is found, and none only if no receipt has it |
| PeerLifecycleTheorems.VerdictBeforeDrop | packages/fleet-agent/plugin_peer.go:2486-2536 | a session leaves the table only after its verdict |
| PeerLifecycleTheorems.DropsNothingAlive | packages/fleet-agent/plugin_peer.go:2486-2536 | no process runs when a session leaves the table; afterwards only a recovery runs one |
| PeerLifecycleTheorems.ReceiptExactly | packages/fleet-agent/plugin_peer.go:2486-2552 | in every interleaving, once a cancel receipt is published or certain, a Cancel is still owed if and only if some plugin took Open and cancelApplied was never set; and then the Hub had ended the session |
| PeerLifecycleTheorems.HubAckExactly | packages/fleet-agent/plugin_peer.go:1935-1962 | in every interleaving, when the durable cancellation is acknowledged to the Hub: without a hand-over something is owed if and only if some plugin took Open and nothing was applied, and then the Hub had ended the session; after a hand-over if and only if the debt was owing when it was handed over |
| PeerLifecycleTheorems.DebtStaysRecorded | packages/fleet-agent/plugin_peer.go:2486-2536 | at any time of any run, a session that has left the table and owes a Cancel is recorded for recovery, unless the Hub ended it or the record was forgotten or handed over |
| PeerLifecycleTheorems.AllGivenBack | packages/fleet-agent/plugin_peer.go:658-860 | when every goroutine is through, every lock and operation was given back exactly once |
| PeerLifecycleTheorems.TransferMovesDebt | packages/fleet-agent/plugin_peer.go:590-616 | a replayed prepare inherits the debt, and the old object recovers no more |
| PeerLifecycleTheorems.LocksBalance | packages/fleet-agent/plugin_peer.go:658-860 | in every interleaving each read lock and plugin operation has one owner that will give it back, and cleanupDone closes exactly when cleanup ends |
| PeerLifecycleTheorems.OneLiveProcess | packages/fleet-agent/plugin_peer.go:658-776 | at most one process of a session is alive, the newest |
| PeerLifecycleTheorems.LockCoversLive | packages/fleet-agent/plugin_peer.go:835-860 | while a process is alive the session holds a read lock, except exactly in the lock gap |
| PeerLifecycleTheorems.GapIsBeingClosed | packages/fleet-agent/plugin_peer.go:733-776 | in the gap the stop of that process is queued, flagged or about to be claimed |
| PeerLifecycleLocks.ReachAccounted | packages/fleet-agent/plugin_peer.go:658-860 | every reachable state has one owner for every lock and operation |
| PeerLifecyclePlaces.ReachPlaced | packages/fleet-agent/plugin_peer.go:2254-2303 | in every reachable state each live process has an epoch or a retry that answers for it |
| PeerLifecycleDebt.ReachDebt | packages/fleet-agent/plugin_peer.go:778-818 | in every reachable state the flags of the session cover every debt of its processes |
| PeerLifecycleGuard.ReachGuard | packages/fleet-agent/plugin_peer.go:835-860 | in every reachable state the session's guard is held from the first committed epoch until cleanup has waited |
| PeerLifecycleCancels.ReachCancels | packages/fleet-agent/plugin_peer.go:2254-2303 | in every reachable state, while cancelApplied may still be taken back, nothing was cancelled; and a Cancel is required only where a plugin took Open |
| PeerLifecycleExact.ReachLedgers | packages/fleet-agent/plugin_peer.go:778-818 | in every reachable state an epoch knows of each of its processes that took Open, and each that was then cancelled is noted in cancelApplied or about to be |
| PeerLifecycleExact.SettledExactly | packages/fleet-agent/plugin_peer.go:2543-2552 | once cleanup has waited and the flags show nothing outstanding, something is owed exactly if a plugin took Open and nothing was applied |
| PeerLifecycleFencing.StaleIsFenced | packages/fleet-agent/plugin_peer.go:733-776 | in every run, whatever a goroutine of an epoch that is not current does leaves the session open or closed as it was, and every other epoch and the processes of others as they were |
| PeerLifecycleFencing.CurrentProcessIsSafe | packages/fleet-agent/plugin_peer.go:2254-2303 | in particular the process that the current epoch owns |
| PeerLifecycleFencing.GenerationsIncrease | packages/fleet-agent/plugin_peer.go:658-690 | generations of started epochs strictly increase, in every run |
| PeerLifecycleWitness.GapHappens | packages/fleet-agent/plugin_peer.go:733-776 | a run into the lock gap |
| PeerLifecycleWitness.TerminalReceiptHappens | packages/fleet-agent/plugin_peer.go:2538-2574 | a run in which a receipt is published while a process is owed a cancel |
| PeerLifecycleWitness.HandOverAckHappens | packages/fleet-agent/plugin_peer.go:590-616 | a run in which the cancellation of a session the Hub has not ended is acknowledged while a process is owed a Cancel |
| PeerHandshake.DataOpenMeans | packages/fleet-agent/plugin_peer.go:1757-1780 | DATA is open only with ticket, bindings and ready in both directions, and the peer's nonces match the ticket |
| PeerHandshake.QuiescentIsOpen | packages/fleet-agent/plugin_peer.go:1637-1697 | with both tickets and both channels and nothing left to do, DATA is open on both sides |
| PeerHandshake.RejectsIffRaceOrOverflow | packages/fleet-agent/plugin_peer.go:1433-1516 | a step makes an endpoint reject an honest peer if and only if it reads ready between sending and flagging its own bindings, or the next message does not fit its inbox of 128 messages and 2 MiB |
| PeerHandshake.OverflowNeedsData | packages/fleet-agent/plugin_peer.go:1433-1460 | an inbox overflows only when the other endpoint has DATA open, so before that only the race rejects |
| PeerHandshake.OverflowHappens | packages/fleet-agent/plugin_peer.go:1433-1460 | a run in which an honest peer's DATA is rejected long after the bindings were flagged |
| PeerHandshake.ReachLinked | packages/fleet-agent/plugin_peer.go:1518-1697 | in every interleaving of the three senders the channel carries bindings, ready, data, done in this order, each once |
| PeerHandshake.RaceHappens | packages/fleet-agent/plugin_peer.go:1651-1659 | a run in which an honest peer is rejected |
| PeerData.DataPath.Emit | packages/fleet-agent/plugin_peer.go:1699-1728 | a chunk is buffered, handed to the channel or drained; over 128 chunks or 2 MiB the epoch fails |
| PeerData.DataPath.FlushTurn | packages/fleet-agent/plugin_peer.go:1782-1805 | one turn of the flusher takes the oldest chunk or ends the flush |
| PeerData.DataPath.AnnounceDone | packages/fleet-agent/plugin_peer.go:1807-1849 | peer_done goes out once, behind the last byte |
| PeerData.BytesFront | packages/fleet-agent/plugin_peer.go:1782-1805 | the byte count of a queue is that of its head and of the rest |
| PeerData.Play | packages/fleet-agent/plugin_peer.go:1699-1849 | over any sequence of events of the plugin, the transport and the goroutines: what went out, is in flight and waits is exactly what was accepted, in order, within 128 chunks and 2 MiB; peer_done goes out at most once, behind the last byte |
| PeerEpochs.Session.StartEpoch | packages/fleet-agent/plugin_peer.go:658-690 | a started epoch replaces only a placeholder, and its generation is above all before it |
| PeerEpochs.Session.Claim | packages/fleet-agent/plugin_peer.go:2472-2480 | the first claim decides for good how plugins are stopped |
| PeerEpochs.Session.BeginNextRound | packages/fleet-agent/plugin_peer.go:2254-2303 | round ids stand one to one for 1 to roundNo; a repeated prepare is recognised and changes nothing |
| PeerEpochs.UsedCount | packages/fleet-agent/plugin_peer.go:2219-2231 | there are as many used round ids as rounds |
| PeerEpochs.NextIsOneToOne | packages/fleet-agent/plugin_peer.go:2254-2303 | a new id for the next number keeps ids and numbers one to one |
| PeerEpochs.Session.CallLate | packages/fleet-agent/plugin_peer.go:862-974 | however many callbacks of plugins, transports and timers come late, of whatever kinds and in whatever order, the session, its epochs, plugins and rounds stay as they are |
| PeerEpochs.Session.Play | packages/fleet-agent/plugin_peer.go:2254-2303 | over any sequence of starts, callbacks, rounds and closes an epoch that was replaced, or whose session was closed, never becomes current again and stays as it was |
| PeerEpochs.Session.Detach | packages/fleet-agent/plugin_peer.go:2491-2499 | after closing lets go of the epochs no callback has authority |
| PeerBooks.Books.RecordReceipt | packages/fleet-agent/plugin_peer.go:2636-2653 | the receipt is kept, its recovery goes, and at most the oldest receipt is forgotten |
| PeerBooks.Books.RecordRecovery | packages/fleet-agent/plugin_peer.go:2655-2670 | the debt is kept, in place of an earlier one of its id; at most the oldest other debt is forgotten |
| PeerBooks.Books.RemoveRecovery | packages/fleet-agent/plugin_peer.go:2672-2678 | only the debt of this very session object goes |
| PeerBooks.Books.DeleteRecovery | packages/fleet-agent/plugin_peer.go:2686-2701 | the index stays in step with the map |
| PeerBooks.DeleteAll | packages/fleet-agent/plugin_peer.go:2689-2701 | the loop deletes every occurrence of an id and keeps the order of the rest |
| PeerBooks.WithoutKeeps | packages/fleet-agent/plugin_peer.go:2689-2701 | deleting removes exactly that id and leaves an order without repeats |
| PeerBooks.JoinedKeeps | packages/fleet-agent/plugin_peer.go:2636-2670 | an index stays in step when a key joins, and the key that joins is never the one that leaves |
| PeerBooks.LastOnes | packages/fleet-agent/plugin_peer.go:2636-2670 | without deletions an index is the last 256 of everything that ever joined |
| PeerBooks.Books.Admit | packages/fleet-agent/plugin_peer.go:1027-1055 | a delivery applied before is acknowledged again exactly where a replay is safe, waits while its session closes, and is applied anew when that is gone |
| PeerBooks.Books.Remember | packages/fleet-agent/plugin_peer.go:1066-1079 | a handled delivery is remembered, and at most the oldest is forgotten; it is itself forgotten at once exactly if another connection had handled it before, as the oldest of a full order |
| PeerBooks.TwoConnections | packages/fleet-agent/plugin_peer.go:1027-1079 | a run in which a delivery is handled twice and then not remembered |
| PeerBooks.Books.Release | packages/fleet-agent/plugin_peer.go:1085-1100 | a delivery is forgotten only when its session is gone |
| PeerBooks.Books.Drop | packages/fleet-agent/plugin_peer.go:2703-2719 | only this very session leaves, and with the last one the deliveries |
| PeerBooks.Books.TakeAll | packages/fleet-agent/plugin_peer.go:2721-2749 | every session and every recovery is taken once |
| PeerProcess.AppliedMeans | packages/fleet-agent/plugin_peer_process.go:214-256 | in every interleaving a Cancel returns true only if the plugin took the record, said so, and left by itself, cleanly, before anyone told it to terminate |
| PeerProcess.StoppedOnce | packages/fleet-agent/plugin_peer_process.go:206-271 | whoever stops the process, the body runs once, all Cancels agree, none succeeds after an Abort came first, and the process group is swept before any of them returns |
| PeerProcess.StepKills | packages/fleet-agent/plugin_peer_process.go:206-271 | every step leaves the process of the session model alone or kills it, once: the machine refines that model |
| PeerProcess.AnswerIsCancelSaid | packages/fleet-agent/plugin_peer_process.go:206-212 | what Cancel returns is what the session model says it returns |
| Operations.OperationStore.HandleRun | packages/fleet-agent/operation.go:166-229 | a run is launched exactly if nothing is known under its key and its intent was written; every other reply is the one the known receipt calls for |
| Operations.OperationStore.ReportResult | packages/fleet-agent/operation.go:188-218 | a completed receipt has the code of this run's result, on disk if the write succeeds |
| Operations.OperationStore.RetryAfterCrash | packages/fleet-agent/operation.go:46-92 | an interrupted intent is answered as unknown after a restart and never launched again |
| Operations.Play | packages/fleet-agent/operation.go:46-229 | over any sequence of requests, results and restarts: no two requests launch for one key; a run is answered as running only while the process that launched this very command lives; and as finished only with a code that this process reported, or with that of its pane while it lives or after it has reported |
| OperationQuery.QueryAfterRunIsKnown | packages/fleet-agent/operation.go:231-312 | a query dispatched after an admitted run, with no earlier receipt and all intents written, is never answered unknown, in any interleaving |
| OperationQuery.StepKeeps | packages/fleet-agent/operation.go:166-251 | each step keeps the accounting of admissions and of what queries have seen |
| OperationQuery.UnreleasedUpdate | packages/fleet-agent/operation.go:235-251 | a run that is released lowers the admissions by one |
| InvocationStore.ClaimAllowed | packages/fleet-agent/internal/receipts/store.go:62-119 | a claim leads only after the last election of the id ended with its end stored, an hour ago or inviting this very input; an execution whose end could not be stored is never repeated |
| InvocationStore.ClaimSpares | packages/fleet-agent/internal/receipts/store.go:62-119 | whatever is claimed, a running intent stays in the index |
| InvocationStore.ReplayIsStored | packages/fleet-agent/internal/receipts/store.go:86-94 | what is answered without executing is the stored reply for the same input, or that the outcome is unknown |
| InvocationStore.ClaimSmall | packages/fleet-agent/internal/receipts/store.go:96-106 | the index never holds more than 512 |
| InvocationStore.FinishKeeps | packages/fleet-agent/internal/receipts/store.go:130-157 | ending an election completes the index exactly if reply and index were both written |
| Invocations.Table.ClaimInvocation | packages/fleet-agent/plugin_invocations.go:39-86 | at most one leader at a time; a follower gets the receipt of the same input; a running receipt is never evicted; at most 512 |
| Invocations.Table.FinishInvocation | packages/fleet-agent/plugin_invocations.go:91-124 | the first completion is stored and closes Done once; one that could not be stored is reported as failed and is not retryable |
| Invocations.Table.Evict | packages/fleet-agent/plugin_invocations.go:55-59 | the loop forgets exactly the finished receipts that have expired |
| Invocations.Table.Sink | packages/fleet-agent/input_invocations.go:61-70 | the first ending reply completes the receipt, and only a desktop request waiting for consent may be repeated |
| InvocationRuns.Play | packages/fleet-agent/plugin_invocations.go:39-124 | over any sequence of claims, completions and restarts: no second leader of an id before the first has ended and its end was stored; then only if that end invited a repeat of the same input, or when the hour that began with the first of such repeats is over |
| InvocationRuns.NextTurn | packages/fleet-agent/plugin_invocations.go:39-86 | a new leader comes in turn after the last one of its id |
| InvocationRuns.LaterTurn | packages/fleet-agent/plugin_invocations.go:39-86 | and so after every earlier one |
| WorkGuard.WorkIsCounted | packages/fleet-agent/update_guard.go:7-33 | in every interleaving of handlers, watchers and approvals activeWork is the number of reservations that are out |
| WorkGuard.RunningIsCovered | packages/fleet-agent/main.go:853-944 | a command, plugin, input or capture that runs is covered until it ends by a goroutine with a reservation, a plugin session by its place in the table |
| WorkGuard.IdleMeansOver | packages/fleet-agent/autoupdate.go:88-96 | there is no idle gap: with no reservation, no consent pending and no session, every request that was ever admitted is over |
| WorkGuard.OverForGood | packages/fleet-agent/main.go:797-843 | a request that is over never starts anything again, in the rest of any run |
| WorkGuard.CommitIsUndisturbed | packages/fleet-agent/update_guard.go:35-49 | while an update commits every request is over, nobody waits, and no step admits or starts anything |
| WorkGuard.HandsKeeps | packages/fleet-agent/main.go:1086-1130 | handing an approved request to its goroutine keeps all this: the approver's reservation covers it until the goroutine has its own |
| PluginManifest.Normalize | packages/fleet-agent/plugin.go:591-688 | succeeds exactly on declarations whose clean form is well formed, and returns that form |
| PluginManifest.CleanedTwice | packages/fleet-agent/plugin.go:591-688 | normalising what was normalised is the identity |
| PluginManifest.NormalizeTwice | packages/fleet-agent/plugin.go:591-688 | so an installed manifest is accepted again, unchanged |
| PluginManifest.DeclaredRole | packages/fleet-agent/plugin.go:644-668 | whatever a protocol gives a role is a declared peer action of that role |
| PluginManifest.OneToOne | packages/fleet-agent/plugin.go:644-668 | two declarations name the same action if and only if they name the same protocol and role |
| PluginManifest.ActionHasPlace | packages/fleet-agent/plugin.go:670-677 | every peer action has a protocol and role |
| PluginManifest.PlaceHasAction | packages/fleet-agent/plugin.go:644-668 | every role of every protocol has an action |
| PluginManifest.PeerActionIsDeclared | packages/fleet-agent/plugin.go:690-704 | of a normal form it accepts exactly the declared triples, and with a peer runtime the blank one |
| PluginManifest.BlankAccepted | packages/fleet-agent/plugin.go:690-704 | every plugin with a peer runtime accepts the blank request |
| PluginManifest.CleanStringSet | packages/fleet-agent/plugin.go:528-549 | at most 64 names, all legal and different once cleaned, in the order given |
| PluginManifest.TrimTwice | packages/fleet-agent/plugin.go:433-444 | trimming leaves no space at either end, and trimming again changes nothing |
| PeerWire.Pipe.WriteRecord | packages/fleet-agent/plugin_peer_wire.go:36-57 | a legal record is written as its frame, or as a part of it if the pipe breaks; nothing is written of an illegal one |
| PeerWire.Pipe.ReadRecord | packages/fleet-agent/plugin_peer_wire.go:67-91 | a record is read exactly if the stream starts with one, and exactly its frame is consumed |
| PeerWire.CutOffHappens | packages/fleet-agent/plugin_peer_wire.go:67-91 | twelve bytes that are a record of five bytes cut off behind its header |
| PeerWire.Pipe.ReadAll | packages/fleet-agent/plugin_peer.go:862-895 | reading until the first error returns every record in order, and of a written list exactly that list, consuming all bytes |
| PeerWire.StartsIffHeader | packages/fleet-agent/plugin_peer_wire.go:67-91 | a stream starts with the frame the writer makes of a record if and only if the reader's checks of header and length pass |
| PeerWire.PrefixCode | packages/fleet-agent/plugin_peer_wire.go:36-57 | no stream starts with two different records |
| PeerWire.SplitsOnce | packages/fleet-agent/plugin_peer_wire.go:36-91 | a stream splits in one way into records and a rest that holds none |
| PeerWire.LengthRoundTrip | packages/fleet-agent/plugin_peer_wire.go:51-52 | the length written is the length read |
| PeerWire.BytesRoundTrip | packages/fleet-agent/plugin_peer_wire.go:82 | four bytes are the bytes of the length they stand for |

## Left out

- SDP contents, ICE and STUN settings, endpoint names and the opaque input of a session: they are carried, not interpreted.
- Token parsing, SHA-256, Ed25519 and JSON: tokens are compared, and messages arrive decoded.
- Sleeps and timers of the Agent: a timeout is an outcome that may come at any time.
- PeerLifecycleTheorems.LockCoversLive: install and uninstall, which take the write lock, are not steps of the model; it says when the session itself holds a read lock.
- PeerLifecycleTheorems.ReceiptExactly: stated for one session object and what it inherited; a receipt is filed under the session id and outlives a replayed prepare that opens again.
- PeerData.Play: the transport is given chunks, and their bytes are not followed further.
- PeerHandshake.QuiescentIsOpen: peer_cancel is not a message of the model, and a plugin that refuses DATA is not either.
- Invocations.Table.ClaimInvocation: the store of receipts is present and not closed for a handoff; the path without one is not part of this model.
- Invocations.Table.FinishInvocation: likewise with the store present.
- Operations.OperationStore.HandleRun: the path without a store, where nothing is persisted, is not part of this model; the text that comes with a result is not either.
- WorkGuard.CommitIsUndisturbed: local plugin-page calls do not pass through beginWork and are not covered; nor is a process that a recovery opens for a session whose record is then taken away.
- PluginManifest.PeerActionIsDeclared: for a manifest in normal form, as an installed one is.
- What a plugin invocation does between claim and completion (executePlugin), and the count of active inputs.
- A second life of a deleted session under the same id.
- The choice of the release to update to, its download and the restart.
- The activity journal, logging, notifications, tray, CLI, settings pages, sign-in and the database: plumbing.
- rtc.go, the vault and the desktop backend: little state, or not part of these properties.
