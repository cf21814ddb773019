# LibreSCRS macOS agent: a verified model of its protocols

The agent brokers smart cards to local clients over a Unix socket and asks the person
through a separate prompter process. This project models the parts of it that are small
concurrent protocols or codecs, and proves what they promise:

- **InstanceLock**: the single-instance lock and the socket file on top of it, as steps of
  any number of processes over a path, inode numbers that are reused, and lock owners, with
  a crash possible at every step.
- **Listener**, **ListenSocket**: the listener's life cycle with the replaced-path guard,
  one machine for both servers, and the class that keeps it.
- **OutQueue**, **Connection**, **Hub**, **HubProofs**, **HubEffects**, **Transport**: the outbound queue of
  a connection against a kernel that takes, interrupts, blocks or fails; the registry of
  connections, whose operations may close what another is walking; and the class.
- **Presence**, **Roster**, **Directory**: handles, readers, cards, routing, the roster and
  what subscribers are told; and the class.
- **CardResolve**, **ResolveFrontend**: the deferred resolve of an inserted card, with the
  monitor, workers, delays and the loop interleaved; and the class.
- **TrustGate**, **TrustGateProofs**: the confirmation of trust changes and the teardown
  order, with workers, the loop and the destructors racing under the guard's mutex.
- **OwnerStores**: who launched an operation, and the signed documents kept for them.
- **Utf8**, **Neutralizer**, **NeutralizerProofs**, **NeutralizerText**, **ArtifactList**:
  display names made inert, and the list made of them.
- **PrompterCodec**, **PrompterRoundTrip**, **PrompterReplies**, **PrompterAccepts**,
  **PrompterDispatch**: the agent-to-prompter messages over CBOR trees, what their parsers
  accept, and the prompter's connections.

A protocol is a total function `Step(state, action)` in which an action that is not enabled
changes nothing, so a run is any sequence of actions and a theorem about `Run` is about
every interleaving. Where the source updates fields or loops, a class or a method does so
too and is proved equal to the function. What the system decides (the kernel's answers, a
bind, a probe, the person) is a parameter that may be anything.

What the model takes from its surroundings: reader ids and card ids are disjoint, card and
operation ids are fresh, a reader holds one card at a time, and only servers that take the
lock touch the lock path. An operation hands over its result once. A client reads a reader's
property event without a card key as an empty slot. Map keys of the prompter protocol are an enumeration of the known
words plus any other text.

Where the source's words and its code differ, the code is modelled:
`agent/src/backend/SingleInstanceLock.cpp:47-52` says the other instance "is serving", which
can be untrue of a holder that has not bound yet, tears down or has removed the lock file
(`InstanceLock.RefusedBeforeBind`, `RefusedInTeardown`, `RefusedThoughNobodyServes`, and
exactly when it is true in `RefusalMeaning`);
`agent/src/backend/SocketFrontend.cpp:1806-1816` means to evict a leaving client's documents,
and a document signed after it left is stored all the same until its grace window ends
(`OwnerStores.DocumentOutlivesItsClient`, and exactly when in `DropIsFinalExactlyWhen`).

`dafny verify dfyconfig.toml` checks the project.

## Model

| member | source | states |
|---|---|---|
| `InstanceLock.OneInCharge` | agent/src/backend/SingleInstanceLock.cpp:36-62 | two processes past the comparison that have not removed the lock file are the same process |
| `InstanceLock.NumberIdentifiesFile` | agent/src/backend/SingleInstanceLock.cpp:23-27 | an open descriptor keeps its inode number from reuse, so the number `lstat` shows at the path decides whether the path names that very file, both ways |
| `InstanceLock.StepInv` | agent/src/backend/SingleInstanceLock.cpp:31-99 | every system call of every process, a crash at any point included, keeps the protocol invariant |
| `InstanceLock.RunInv` | agent/src/backend/SingleInstanceLock.cpp:31-99 | so does every run |
| `InstanceLock.MutualExclusion` | agent/src/backend/SingleInstanceLock.cpp:36-62 | for any number of processes, any interleaving, crashes anywhere and inode numbers reused, at most one process is in charge |
| `InstanceLock.OnlyHolderTouchesSocket` | agent/src/backend/SocketTransport.cpp:173-195 | among participants only the process in charge, and no other, ever changes what the socket path names |
| `InstanceLock.StepSparesHolder` | agent/src/backend/SocketTransport.cpp:226-268 | one step of anybody else leaves both files and the record of the process in charge as they are |
| `InstanceLock.NobodyRemovesHoldersFiles` | agent/src/backend/SocketTransport.cpp:226-268 | over a whole run of everybody else, predecessors in teardown included, the holder keeps its socket and lock file |
| `InstanceLock.SocketGoneBeforeLock` | prompter/PrompterServer.cpp:316-323 | in a teardown the step that gives up the lock file comes after the server's own socket file is gone |
| `InstanceLock.ReleaseFindsItsFile` | agent/src/backend/SingleInstanceLock.cpp:88-99 | an orderly release always finds its own file at the path and removes it |
| `InstanceLock.OnlyOwnSocketRemoved` | agent/src/backend/SocketTransport.cpp:264-266 | among participants a teardown removes only the socket file its own process bound in this life |
| `InstanceLock.StaleMeansNobodyServes` | agent/src/backend/SocketTransport.cpp:83-83 | what a bind unlinks first is nobody's: no process serves at that moment |
| `InstanceLock.RefusalMeaning` | agent/src/backend/SingleInstanceLock.cpp:47-52 | "another instance" names a real other holder; "it is serving" is true of it exactly when it has compared the path, its file is still there, it listens and its teardown has not begun (and no foreign process replaced the socket file) |
| `InstanceLock.RefusedBeforeBind` | agent/src/backend/SingleInstanceLock.cpp:47-52 | a run in which the words are said of a holder that has not bound its socket yet |
| `InstanceLock.RefusedInTeardown` | agent/src/backend/SingleInstanceLock.cpp:47-52 | a run in which they are said of a holder in teardown, the lock file still at the path |
| `InstanceLock.RefusedThoughNobodyServes` | agent/src/backend/SingleInstanceLock.cpp:47-52 | a run in which they are said after the holder removed the lock file: nobody is in charge |
| `InstanceLock.NextContenderAcquires` | agent/src/backend/SingleInstanceLock.cpp:36-62 | after any crash or release one undisturbed attempt takes the lock |
| `InstanceLock.CrashFreesLock` | agent/src/backend/SingleInstanceLock.cpp:36-62 | a process that crashes in charge leaves both paths as they are and no lock, and the next contender takes the file it left |
| `InstanceLock.HolderComesToServe` | agent/src/backend/SocketTransport.cpp:76-116 | a holder left to clear the path, bind, take the identity and listen serves |
| `InstanceLock.ReplacedServerRebinds` | agent/src/backend/SocketTransport.cpp:307-367 | a server whose path a foreign process took no longer serves, sees it, closes its listener and can bind and serve again |
| `InstanceLock.World.Attempt` | agent/src/backend/SingleInstanceLock.cpp:37-61 | one turn of the retry loop amid arbitrary steps of the others: in charge alone, an error with nothing kept, or go round again, eight turns in all; "another instance" only if the lock was taken at that moment, "failed" only for a fault |
| `InstanceLock.World.Acquire` | agent/src/backend/SingleInstanceLock.cpp:31-65 | success means this process and nobody else is in charge; an error leaves no descriptor and no lock, and "another instance" means that another process held the lock at some moment of the run; every call is a step of the protocol |
| `InstanceLock.World.Release` | agent/src/backend/SingleInstanceLock.cpp:88-99 | afterwards the process holds nothing and the file it had locked is not at the path, whatever the others do between its calls |
| `Listener.RunInv` | agent/src/backend/SocketTransport.cpp:276-420 | every run of ticks, accepts, handlers, timers, stops, starts, foreign replacements and descriptor reuse keeps the life-cycle invariant |
| `Listener.NeverClosedEarly` | agent/src/backend/SocketTransport.cpp:337-353 | in every run a pending cancel handler finds the listen descriptor open and still the object recorded at the cancel, and a source watches the listener; the misuse counters stay 0 |
| `Listener.NeverStuck` | agent/src/backend/SocketTransport.cpp:307-367 | an up listener serves, or exactly one cancel handler is in flight with a rebind pending, or it is closed with a rebind pending; the group counts live sources plus pending handlers |
| `Listener.OneBindRestores` | agent/src/backend/SocketTransport.cpp:355-367 | from any up state one look at the path and the handler it may ask for leave it serving at its own path, if the bind succeeds |
| `Listener.StopGetsThrough` | prompter/PrompterServer.cpp:286-324 | loop block, handler, rest: afterwards nothing is open, installed or in flight, nothing was bound, and the path is gone if it was ours and untouched if not; the prompter is idle again, the transport gone |
| `Listener.NothingBindsOnceStopping` | agent/src/backend/SocketTransport.cpp:226-260 | no bind happens after stopping until a start, and never again once the transport is gone |
| `Listener.OnlyTheHandlerCloses` | prompter/PrompterServer.cpp:187-204 | no step but a cancel handler closes the listen descriptor or changes what is behind it |
| `Listener.PauseEnds` | agent/src/backend/SocketTransport.cpp:392-420 | paused implies a suspended source and an armed retry timer, whose firing resumes exactly that source |
| `Listener.ExhaustionPauses` | agent/src/backend/SocketTransport.cpp:369-412 | out of descriptors the agent's listener is suspended with its timer armed, or, its path taken, cancelled with a rebind pending; the prompter's does not pause |
| `Listener.StartServes` | prompter/PrompterServer.cpp:153-185 | a start from idle, after a stop too, serves at its own path exactly when the bind succeeds, and otherwise leaves nothing open |
| `Listener.ReplacementIsSeen` | agent/src/backend/SocketTransport.cpp:307-335 | a file put at the path by anyone is seen by the next look, which cancels the source and asks for a rebind |
| `Listener.NumberIsReused` | agent/src/backend/SocketTransport.cpp:337-353 | a descriptor number not in use may become anybody's, and is not taken for the listener's |
| `ListenSocket.ListenSocket.OnAcceptReady` | agent/src/backend/SocketTransport.cpp:369-390 | keeps the life-cycle invariant; every accept was on the listener, which stays open; a source cancelled here has its rebind pending and one handler in flight |
| `ListenSocket.ListenSocket.PathGuardTick` | agent/src/backend/SocketTransport.cpp:307-324 | keeps the invariant; a closed listener serves again exactly when the bind succeeds, an open one is not closed |
| `ListenSocket.ListenSocket.RetryTimerFires` | agent/src/backend/SocketTransport.cpp:402-404 | keeps the invariant; afterwards nothing is paused, and no running source was resumed |
| `ListenSocket.ListenSocket.CancelHandler` | prompter/PrompterServer.cpp:187-204 | keeps the invariant with the closed-early counter at 0; the descriptor it closed is the one recorded at the cancel; it serves afterwards exactly when not stopping and the bind succeeded |
| `ListenSocket.ListenSocket.StopOnLoop` | agent/src/backend/SocketTransport.cpp:226-251 | keeps the invariant; at most one handler is left, and the listener is open exactly if that one is to close it |
| `ListenSocket.ListenSocket.FinishStopping` | prompter/PrompterServer.cpp:316-323 | nothing is open or in flight, and the path is cleared only of our own file |
| `ListenSocket.ListenSocket.StartServing` | prompter/PrompterServer.cpp:153-185 | serving at a path of our own exactly when the bind succeeded, else not started |
| `ListenSocket.ListenSocket.RebindListenSocket` | agent/src/backend/SocketTransport.cpp:355-367 | unlink, bind, record and install, or still pending; reports success exactly when the bind succeeded |
| `ListenSocket.ListenSocket.PauseAccepting` | agent/src/backend/SocketTransport.cpp:392-412 | suspended, flagged and the timer armed, unless there is no source or it is paused |
| `ListenSocket.ListenSocket.ResumeAccepting` | agent/src/backend/SocketTransport.cpp:414-420 | the source resumed only if it was paused; the timer that calls it is RetryTimerFires |
| `ListenSocket.ListenSocket.CheckSocketPath` | agent/src/backend/SocketTransport.cpp:307-324 | the path check, branch by branch, as the step function has it |
| `ListenSocket.ListenSocket.CancelAcceptSource` | agent/src/backend/SocketTransport.cpp:326-335 | resumed first, the listener recorded, the handler in flight |
| `ListenSocket.ListenSocket.OnAcceptSourceCancelled` | agent/src/backend/SocketTransport.cpp:337-353 | checked, closed, then the identity kept or reset and the rebind made |
| `OutQueue.StreamWhole` | agent/src/backend/SocketTransport.cpp:578-640 | bytes recorded as taken plus the unsent rest of the queue are the concatenation of all frames offered |
| `OutQueue.DescriptorsRideOnce` | agent/src/backend/SocketTransport.cpp:131-166 | a send carries its frame's descriptors exactly when it is the first that took anything of the frame, and then starts at the frame's first byte; every other send carries none |
| `OutQueue.SentFrameHadASend` | agent/src/backend/SocketTransport.cpp:131-166 | every nonempty frame that is out had such a first send |
| `OutQueue.StepOk` | agent/src/backend/SocketTransport.cpp:130-167 | a partial write keeps the stream in order |
| `OutQueue.PopOk` | agent/src/backend/SocketTransport.cpp:628-629 | dropping a finished frame keeps it |
| `OutQueue.OfferOk` | agent/src/backend/SocketTransport.cpp:585-587 | queueing a frame keeps it |
| `Connection.SendingOk` | agent/src/backend/SocketTransport.cpp:120-171 | for every sequence of kernel answers one frame's send leaves the history right: fully sent exactly on Sent, else its descriptors and the rest are kept |
| `Connection.FlushOk` | agent/src/backend/SocketTransport.cpp:598-640 | a flush loses and adds no frame, takes nothing back, and ends settled or closing |
| `Connection.EnqueueOk` | agent/src/backend/SocketTransport.cpp:578-596 | an enqueue adds its frame behind all others and ends settled or closing |
| `Connection.BytesNeverNegative` | agent/src/backend/SocketTransport.cpp:598-629 | the byte counter never underflows, before or after a pop |
| `Connection.SendingHeard` | agent/src/backend/SocketTransport.cpp:128-168 | one frame's send against every sequence of kernel answers: the answers used are a beginning of them, and the pieces recorded are one per answer that took something, in order, each of that many bytes or the rest of the frame; how it ends is told by the last answer |
| `Connection.FlushHeard` | agent/src/backend/SocketTransport.cpp:598-640 | the same through a whole flush, and it closes only for a broken connection, too many descriptors, or a final frame that is out |
| `Connection.EnqueueHeard` | agent/src/backend/SocketTransport.cpp:578-596 | past 4194304 bytes or 4096 frames the connection is to be closed with nothing sent; within them the offer follows the kernel's answers |
| `Connection.TooManyDescriptors` | agent/src/backend/SocketTransport.cpp:122-127 | a frame with more descriptors than a message holds closes the connection, nothing of it sent |
| `Connection.FrontGetsOut` | agent/src/backend/SocketTransport.cpp:598-630 | a front frame the kernel takes whole gets out |
| `HubProofs.StepInv` | agent/src/backend/SocketTransport.cpp:422-707 | every event, with whatever the sink calls back, keeps the registry invariant |
| `HubProofs.RunInv` | agent/src/backend/SocketTransport.cpp:422-707 | so does every run |
| `HubProofs.EveryStreamWhole` | agent/src/backend/SocketTransport.cpp:578-640 | at every moment each open connection's stream is whole, its byte counter is the sum of its queue, and the 4 MiB, 4096-frame and 32-connection bounds hold |
| `HubProofs.EveryAnswerCounted` | agent/src/backend/SocketTransport.cpp:155-168 | in every run each connection's recorded pieces are exactly what the kernel answered to its system calls, answer by answer |
| `HubProofs.ClosedStreamIsPrefix` | agent/src/backend/SocketTransport.cpp:549-576 | a connection that is gone got a prefix of what was offered to it |
| `HubProofs.EndedMeansSilent` | agent/src/backend/SocketTransport.cpp:520-541 | after a close or a final frame no request of that connection reaches the sink and no broadcast is offered to it, even within the batch under way; an id is never opened twice |
| `HubProofs.DisconnectOnce` | agent/src/backend/SocketTransport.cpp:570-575 | a closed connection fired each handler registered then exactly once, in registration order; an open one none |
| `HubProofs.BroadcastOffersOnce` | agent/src/backend/SocketTransport.cpp:686-707 | a broadcast offers its frame once to each connection eligible at the call and touches no other, whichever close on the way |
| `HubEffects.BatchDelivers` | agent/src/backend/SocketTransport.cpp:503-547 | a read batch of an open connection hands its requests to the sink in order, one delivery each, up to its end, a malformed frame or the connection's end; a malformed frame reached, or a bad status, leaves the connection closed |
| `HubEffects.BatchRuns` | agent/src/backend/SocketTransport.cpp:521-546 | the states between the requests of a batch: each is logged and its calls made before the next, and the first frame is noted |
| `HubEffects.CallsRun` | agent/src/backend/SocketTransport.cpp:535-542 | the sink's calls of one request are all made, in order |
| `HubEffects.CallDoes` | agent/src/backend/SocketTransport.cpp:642-707 | what each call comes to for every connection: a reply offered to its own, a final one ending it, an event to whoever is eligible, a wish noted; any other connection untouched |
| `HubEffects.AcceptExactly` | agent/src/backend/SocketTransport.cpp:422-467 | a peer gets a fresh connection exactly when its credentials were read and fewer than 32 are open; nothing changes otherwise |
| `HubEffects.TimeoutExactly` | agent/src/backend/SocketTransport.cpp:484-492 | a connection without a first frame is reaped, any other left alone |
| `HubEffects.WriteReadySends` | agent/src/backend/SocketTransport.cpp:607-630 | on a write-ready event a front frame the kernel takes gets out |
| `HubEffects.CloseDoes` | agent/src/backend/SocketTransport.cpp:549-576 | a close takes that connection out, leaves every other alone and calls each registered handler once, first registered first |
| `HubEffects.RunDesk` | agent/src/backend/SocketTransport.cpp:570-575 | in every run the handlers are those registered since the last quiesce, and the sink is set until the first |
| `Transport.TrySendFrame` | agent/src/backend/SocketTransport.cpp:120-171 | the send loop computes the specified outcome for every sequence of kernel answers |
| `Transport.Drain` | agent/src/backend/SocketTransport.cpp:598-640 | the flush loop computes the specified flush |
| `Transport.Transport.CloseConnection` | agent/src/backend/SocketTransport.cpp:549-576 | refines the close |
| `Transport.Transport.Notify` | agent/src/backend/SocketTransport.cpp:573-575 | calls every handler once, in order |
| `Transport.Transport.FlushWrites` | agent/src/backend/SocketTransport.cpp:598-640 | refines the flush, closing included |
| `Transport.Transport.EnqueueSend` | agent/src/backend/SocketTransport.cpp:578-596 | refines the offer |
| `Transport.Transport.SendThenClose` | agent/src/backend/SocketTransport.cpp:659-677 | refines the final send and keeps the registry invariant |
| `Transport.Transport.Broadcast` | agent/src/backend/SocketTransport.cpp:686-707 | refines the broadcast over its snapshot of ids and keeps the registry invariant |
| `Transport.Transport.OnReadReady` | agent/src/backend/SocketTransport.cpp:503-547 | refines the read batch with the sink's callbacks and keeps the registry invariant |
| `Transport.Transport.AcceptOne` | agent/src/backend/SocketTransport.cpp:422-467 | refines the accept and keeps the registry invariant |
| `Presence.DoOk` | agent/src/backend/SocketTransport.cpp:709-876 | every directory operation keeps the maps inverse, cards and routing with the same handles and matching keys, and every handle's meaning |
| `Presence.RunOk` | agent/src/backend/SocketTransport.cpp:709-876 | so does every sequence of operations |
| `Presence.MapsInverse` | agent/src/backend/SocketTransport.cpp:709-719 | id-to-handle and handle-to-id are mutually inverse after any run |
| `Presence.HandleNeverReused` | agent/src/backend/SocketTransport.cpp:709-719 | a handle names the same object or nothing at every later moment |
| `Presence.StaleHandle` | agent/src/backend/SocketTransport.cpp:942-964 | the card handle a reader carries answers with the card it was made for, or with none once that card is gone, never with another |
| `Presence.DoTells` | agent/src/backend/SocketTransport.cpp:721-876 | one operation tells subscribers exactly what it changed, a property event without a card key read as an empty slot |
| `Presence.ClientCatchesUp` | agent/src/backend/SocketTransport.cpp:921-931 | a snapshot taken at any moment plus every event since is the snapshot of now |
| `Presence.PublishedReaderIs` | agent/src/backend/SocketTransport.cpp:721-737 | a published reader is on the shelf with that name, label, card flag and slot, under the handle it had if it had one; nothing else changes |
| `Presence.PublishedCardIs` | agent/src/backend/SocketTransport.cpp:765-801 | a published card names its reader's handle, its type unless empty and its capabilities, and is routed to that reader by its published name; nothing else changes |
| `Presence.WithdrawnIsGone` | agent/src/backend/SocketTransport.cpp:803-819 | a withdrawn object has no handle and is on no shelf, and nothing else changes; an unknown one changes nothing |
| `Presence.UpdatedPropertiesAre` | agent/src/backend/SocketTransport.cpp:821-855 | a published reader gets that card flag and slot, empty without a card, and keeps name and label; an unpublished one changes nothing |
| `Presence.RelabelledReaderIs` | agent/src/backend/SocketTransport.cpp:739-763 | a published reader shows the new label and is otherwise as it was; subscribers hear of it exactly when it changed |
| `Presence.CardTypeIs` | agent/src/backend/SocketTransport.cpp:857-876 | a published card gets that type and is otherwise as it was |
| `Roster.OthersKeep` | agent/src/backend/SocketTransport.cpp:721-876 | readers coming, going and changing leave the published cards alone |
| `Roster.PublishCardAdds` | agent/src/backend/SocketTransport.cpp:765-801 | publishing a card adds it for its reader and changes no other card |
| `Roster.WithdrawRemoves` | agent/src/backend/SocketTransport.cpp:803-819 | a withdraw removes that card and no other |
| `Roster.OneNames` | agent/src/backend/SocketTransport.cpp:972-999 | one published card per reader id means one card object per reader handle |
| `Roster.RosterDetermined` | agent/src/backend/SocketTransport.cpp:972-999 | then the roster's line for a reader does not depend on the order the maps are walked |
| `Roster.RosterSurvives` | agent/src/backend/SocketTransport.cpp:739-763 | property, label and type changes leave a current roster current |
| `Directory.Directory.HandleFor` | agent/src/backend/SocketTransport.cpp:709-719 | makes a handle on first use |
| `Directory.Directory.FindCard` | agent/src/backend/SocketTransport.cpp:986-993 | the key of a card object that names the reader, or none when none does |
| `Directory.Directory.RebuildRoster` | agent/src/backend/SocketTransport.cpp:972-999 | lists every published reader once, with its card's key |
| `Directory.Directory.PublishReader` | agent/src/backend/SocketTransport.cpp:721-737 | refines the operation and leaves the roster current |
| `Directory.Directory.PublishCard` | agent/src/backend/SocketTransport.cpp:765-801 | refines the operation and leaves the roster current |
| `Directory.Directory.Withdraw` | agent/src/backend/SocketTransport.cpp:803-819 | refines the operation and leaves the roster current |
| `Directory.Directory.UpdateProperties` | agent/src/backend/SocketTransport.cpp:821-855 | refines the operation; the roster stays current |
| `Directory.Directory.RelabelReader` | agent/src/backend/SocketTransport.cpp:739-763 | refines the operation; the roster stays current |
| `Directory.Directory.UpdateCardType` | agent/src/backend/SocketTransport.cpp:857-876 | refines the operation; the roster stays current |
| `Directory.Directory.CardIn` | agent/src/backend/SocketTransport.cpp:942-964 | the slot's card, always the one its handle was made for |
| `CardResolve.StepInv` | agent/src/backend/SocketFrontend.cpp:1665-1789 | every step of monitor, workers, delays and loop keeps: what the loop has seen plus what is queued is the monitor's history; a card the loop has seen arrive and not leave is pending or published, never both |
| `CardResolve.RunInv` | agent/src/backend/SocketFrontend.cpp:1665-1789 | so does every run |
| `CardResolve.OneCardPerReader` | agent/src/backend/SocketTransport.cpp:979-985 | in every run at most one published card names a reader |
| `CardResolve.FirstMatchIsOnlyMatch` | agent/src/backend/SocketTransport.cpp:979-993 | so of the card objects at most one names a reader object |
| `CardResolve.PublishedOnce` | agent/src/backend/SocketFrontend.cpp:1746-1769 | no insertion is published twice |
| `CardResolve.WithdrawnNeverPublished` | agent/src/backend/SocketFrontend.cpp:1678-1680 | once the loop has run a card's withdrawal, no later directory holds it and no later publish is for it |
| `CardResolve.NothingLost` | agent/src/backend/SocketFrontend.cpp:1711-1769 | with the queue empty the cards present are exactly the published and the pending ones |
| `CardResolve.NoPendingCardForgotten` | agent/src/backend/SocketFrontend.cpp:1711-1769 | in every run a pending card has a probe out, a delay running, or an answer or a new asking queued, unless the run lost its probe |
| `CardResolve.AnswerResolves` | agent/src/backend/SocketFrontend.cpp:1746-1769 | an answer publishes a card still pending, for its reader, unless it was refused with time left, and then it is asked again; a card no longer pending is ignored |
| `CardResolve.InsertedIsPublished` | agent/src/backend/SocketFrontend.cpp:1711-1769 | with the loop idle an inserted card is pending after its block and published after its probe |
| `CardResolve.RemovedIsWithdrawn` | agent/src/backend/SocketFrontend.cpp:1678-1709 | a removed card is neither pending nor published once the loop has heard; any other posted operation is done to the directory |
| `ResolveFrontend.Frontend.OnCardArrived` | agent/src/backend/SocketFrontend.cpp:1711-1744 | keeps the resolve invariant; the card is pending and not published |
| `ResolveFrontend.Frontend.ApplyCardResolution` | agent/src/backend/SocketFrontend.cpp:1746-1769 | refines the resolve block and keeps the invariant: nothing for a card no longer pending, else asked again or published for the first time, one card per reader |
| `ResolveFrontend.Frontend.AskAgainLater` | agent/src/backend/SocketFrontend.cpp:1736-1742 | refines the delayed block; the frontend and the directory are as before |
| `ResolveFrontend.Frontend.OnCardWithdrawn` | agent/src/backend/SocketFrontend.cpp:1678-1699 | keeps the invariant; the card is neither pending nor published |
| `TrustGateProofs.StepInv` | agent/src/backend/SocketFrontend.cpp:1417-1501 | every step of workers, loop, hosts and peers keeps the confirmation invariant |
| `TrustGateProofs.RunInv` | agent/src/backend/SocketFrontend.cpp:1417-1501 | so does every run |
| `TrustGateProofs.TeardownIsSafe` | agent/src/backend/SocketFrontend.cpp:308-322 | no step of the confirmation path uses the frontend or the transport after it is gone, and whoever is about to use one finds it there; with the loop quiesced first no posted block meets a freed frontend |
| `TrustGateProofs.NothingAfterFinalDrain` | agent/src/backend/SocketTransport.cpp:226-258 | after the transport's final drain no continuation is queued, running or still to come |
| `TrustGateProofs.UnsafeWithoutQuiesce` | agent/src/main.cpp:413-421 | why the host quiesces first: a run without it in which a posted block meets a freed frontend |
| `TrustGateProofs.GateOutcome` | agent/src/backend/SocketFrontend.cpp:1076-1115 | the gate as a table over its inputs: a person is asked exactly about a describable trust change that is granted, allowed and of a caller with none outstanding; a plain change is applied exactly when granted; every other case has its one error |
| `TrustGateProofs.TableIsExact` | agent/src/backend/SocketFrontend.cpp:1362-1456 | no two rows of the table disagree: a request and what the loop was told determine the answer |
| `TrustGateProofs.ReadIsRuledOn` | agent/src/backend/SocketFrontend.cpp:1376-1398 | a request that is read has the authoriser's and the limiter's answers recorded, and is asked about or finished as the table says of them |
| `TrustGateProofs.TrustChangeIsGated` | agent/src/backend/SocketFrontend.cpp:1417-1501 | against the recorded answers: a trust change ran only for a describable request granted, allowed, put to a person and answered yes; a plain change ran exactly when it was granted; every other finished request got the table's answer |
| `TrustGateProofs.OneConfirmationPerCaller` | agent/src/backend/SocketFrontend.cpp:1417-1501 | at most one confirmation per connection is outstanding, and a caller turned away for that reason has one |
| `TrustGateProofs.ExactlyOneReply` | agent/src/backend/SocketFrontend.cpp:1362-1501 | each request has one reply or an outstanding confirmation while the frontend lives and the loop runs; never two |
| `TrustGateProofs.AnswerReachesItsReply` | agent/src/backend/SocketFrontend.cpp:1458-1501 | an answered confirmation reaches its one reply by the worker's and the loop's own steps, whatever is queued before it, as long as no teardown begins, and the change runs exactly if the answer was yes |
| `TrustGateProofs.PersonIsHeard` | agent/src/backend/SocketFrontend.cpp:1462-1476 | the person's answer is taken as given |
| `TrustGateProofs.HistoryOnlyGrows` | agent/src/backend/SocketFrontend.cpp:1417-1501 | in every run what happened to a request is never taken back |
| `TrustGateProofs.TrustChangeHappens` | agent/src/backend/SocketFrontend.cpp:1362-1501 | every describable change has a run in which it is asked for, allowed, confirmed and made |
| `TrustGateProofs.NobodyLeftInFlight` | agent/src/backend/SocketFrontend.cpp:1806-1816 | until the frontend is quiesced or gone, a caller is in the in-flight set only while connected or with its disconnect still to run |
| `TrustGateProofs.NothingAppliedAfterDeath` | agent/src/backend/SocketFrontend.cpp:308-322 | once the guard is dead no trust change ever runs |
| `OwnerStores.StepInv` | agent/src/backend/SocketFrontend.cpp:533-542 | every step keeps the stores' invariant, an operation that finishes before its launch returns included |
| `OwnerStores.RunInv` | agent/src/backend/SocketFrontend.cpp:974-1041 | so does every run |
| `OwnerStores.OnlyTheOwner` | agent/src/backend/SocketFrontend.cpp:974-1041 | a document is handed to, and a cancel honoured for, the caller that launched the operation only, and the document is the one that operation signed |
| `OwnerStores.OwnerEntryExactly` | agent/src/backend/SocketFrontend.cpp:1002-1009 | an owner entry is there exactly while its launch has returned, its prune has not run and its client was not dropped; its prune is still to come |
| `OwnerStores.DocumentKeptExactly` | agent/src/backend/SocketFrontend.cpp:987-1000 | a document is stored exactly when its block has run and neither its eviction nor its owner's drop has since; its grace eviction is still to come |
| `OwnerStores.NothingLeaks` | agent/src/backend/SocketFrontend.cpp:987-1009 | with nothing running, queued or delayed the stores are empty |
| `OwnerStores.NoOracle` | agent/src/backend/SocketFrontend.cpp:1011-1028 | to anybody but the launcher a stored document looks like none and a live operation like none |
| `OwnerStores.OwnerIsServed` | agent/src/backend/SocketFrontend.cpp:974-1041 | a connected caller's cancel is passed on exactly while its operation is live, and it gets the signed document exactly while that is kept for it |
| `OwnerStores.LaunchEntersOwner` | agent/src/backend/SocketFrontend.cpp:533-542 | a launch that returns makes the operation its caller's to cancel |
| `OwnerStores.BlocksRunInOrder` | agent/src/backend/SocketFrontend.cpp:987-1009 | posted blocks run in order, and a grace window that ends posts its eviction |
| `OwnerStores.EveryDocumentPosted` | agent/src/backend/SocketFrontend.cpp:987-1000 | in every run each signed document is on its way to the store, or was there, for the caller that launched its operation |
| `OwnerStores.DropIsFinalExactlyWhen` | agent/src/backend/SocketFrontend.cpp:1806-1816 | dropping a client's entries is final exactly when no operation of it launched with the sign sink runs unsigned and no document of it is queued |
| `OwnerStores.DocumentOutlivesItsClient` | agent/src/backend/SocketFrontend.cpp:720-726 | a run in which a document is stored for a client after its entries were dropped |
| `OwnerStores.OtherOperationsStoreNothing` | agent/src/backend/SocketFrontend.cpp:839-846 | a client that leaves with an operation without the sink still running leaves nothing, whatever follows |
| `OwnerStores.Keeper.ReplyLaunched` | agent/src/backend/SocketFrontend.cpp:533-542 | an accepted launch is its caller's to cancel and nobody else's; no other operation is affected, and a refused launch changes nothing |
| `OwnerStores.Keeper.RunPosted` | agent/src/backend/SocketFrontend.cpp:987-1009 | stash, eviction, prune and drop keep the stores exactly what history says |
| `OwnerStores.Keeper.HandleCancel` | agent/src/backend/SocketFrontend.cpp:974-985 | passed on exactly for an operation this caller launched, not yet pruned nor dropped |
| `OwnerStores.Keeper.HandleGetSignResult` | agent/src/backend/SocketFrontend.cpp:1011-1041 | a document exactly when this caller launched the operation and its document is still kept, and then the one it signed |
| `Neutralizer.Find` | agent/src/backend/wire/PrompterProtocol.cpp:828-830 | the first occurrence at or after a position, or none |
| `Neutralizer.CollapseInPlace` | agent/src/backend/wire/PrompterProtocol.cpp:828-830 | the in-place replacement loop computes the left-to-right collapse |
| `Neutralizer.BlankInPlace` | agent/src/backend/wire/PrompterProtocol.cpp:799-804 | the control-byte pass |
| `Neutralizer.ElideInPlace` | agent/src/backend/wire/PrompterProtocol.cpp:832-839 | the cut on a code-point boundary |
| `Neutralizer.Neutralize` | agent/src/backend/wire/PrompterProtocol.cpp:796-842 | the whole rewriting computes its specification |
| `NeutralizerProofs.CollapseCreatesNothing` | agent/src/backend/wire/PrompterProtocol.cpp:828-830 | collapsing one sequence brings no other into being |
| `NeutralizerProofs.CollapseAllRemoves` | agent/src/backend/wire/PrompterProtocol.cpp:813-831 | after the passes none of the sequences is left: a later pass undoes no earlier one |
| `NeutralizerProofs.NeutralizedIsInert` | agent/src/backend/wire/PrompterProtocol.cpp:796-842 | for every byte string the result has only bytes from 0x20 other than 0x7F, holds no UTF-8 encoding of U+2028, U+2029, U+0085, U+200E-U+200F, U+202A-U+202E or U+2066-U+2069, and has at most 131 bytes |
| `NeutralizerProofs.CleanIsDisplayed` | agent/src/backend/wire/PrompterProtocol.cpp:799-831 | the fourteen passes one after the other show what one scan from the left shows that blanks control bytes and the encodings of those code points |
| `NeutralizerProofs.NeutralizedIs` | agent/src/backend/wire/PrompterProtocol.cpp:796-842 | that scan whole when it has at most 128 bytes, else cut at the last place up to byte 128 where a code point starts and marked with U+2026 |
| `NeutralizerProofs.HarmlessIsKept` | agent/src/backend/wire/PrompterProtocol.cpp:796-842 | a name of at most 128 bytes is left unchanged exactly when nothing in it had to go |
| `NeutralizerProofs.NeutralizedTwice` | agent/src/backend/wire/PrompterProtocol.cpp:796-842 | applying it twice is applying it once |
| `NeutralizerText.NeutralizedText` | agent/src/backend/wire/PrompterProtocol.cpp:796-842 | on valid text the result is the same code points, each control, line break or bidirectional control shown as a space, cut after the last that fits in 128 bytes and marked with U+2026 |
| `NeutralizerText.NeutralizedKeepsUtf8` | agent/src/backend/wire/PrompterProtocol.cpp:832-839 | valid UTF-8 (RFC 3629) in, valid UTF-8 out |
| `ArtifactList.FormatUntrustedArtifactList` | agent/src/backend/wire/PrompterProtocol.cpp:846-862 | read as lines the block is one bulleted neutralised name per listed name, in order; listed plus omitted is every name |
| `ArtifactList.BlockHasNoSeparator` | agent/src/backend/wire/PrompterProtocol.cpp:846-862 | none of those code points is encoded anywhere in the block, in a line or across a line break |
| `PrompterRoundTrip.PrintSays` | agent/src/backend/wire/PrompterProtocol.cpp:225-404 | a printed request says, key by key, what the protocol's table says of it |
| `PrompterRoundTrip.RoundTrip` | agent/src/backend/wire/PrompterProtocol.cpp:433-588 | parsing a printed request gives it back, interface "unknown" read as absent; the single-secret PIN change is refused, and nothing else |
| `PrompterRoundTrip.PrintCanon` | agent/src/backend/wire/PrompterProtocol.cpp:277-286 | a request and its canonical form print alike |
| `PrompterRoundTrip.PrintedAlike` | agent/src/backend/wire/PrompterProtocol.cpp:225-404 | two requests print alike exactly when they read alike |
| `PrompterRoundTrip.AcceptedHasCanonicalForm` | agent/src/backend/wire/PrompterProtocol.cpp:433-588 | whatever was accepted prints to a form that is accepted and reads as one fixed request |
| `PrompterRoundTrip.NewerIsRefused` | agent/src/backend/wire/PrompterProtocol.cpp:442-451 | refused as unsupported exactly when the announced number, at full width, is above 2 |
| `PrompterRoundTrip.OnlyKnownKeys` | agent/src/backend/wire/PrompterProtocol.cpp:433-588 | the result depends on the known keys only |
| `PrompterRoundTrip.UnknownKeysIgnored` | agent/src/backend/wire/PrompterProtocol.cpp:433-588 | adding unknown keys never changes it |
| `PrompterAccepts.ParsedExactly` | agent/src/backend/wire/PrompterProtocol.cpp:433-588 | exactly which messages are accepted, by keys, types, tag and kind words; what each reads as, key by key, absent as empty or zero and numbers modulo 2^32; and which error each refused one gets |
| `PrompterAccepts.BodyExactly` | agent/src/backend/wire/PrompterProtocol.cpp:433-440 | the same from the decoded body: no CBOR and no map are refused as that |
| `PrompterAccepts.SecretReplyExactly` | agent/src/backend/wire/PrompterProtocol.cpp:590-634 | exactly which secret replies are accepted, their fields, and the error of each refused one |
| `PrompterAccepts.PairReplyExactly` | agent/src/backend/wire/PrompterProtocol.cpp:710-761 | the same for the pair reply |
| `PrompterAccepts.ConfirmReplyExactly` | agent/src/backend/wire/PrompterProtocol.cpp:636-679 | the same for the confirmation, refused whenever a secret's key is there |
| `PrompterAccepts.ResetDoneExactly` | agent/src/backend/wire/PrompterProtocol.cpp:681-708 | the same for the reset answer |
| `PrompterCodec.OptStringArray` | agent/src/backend/wire/PrompterProtocol.cpp:81-101 | the collecting loop: every item text, or nothing |
| `PrompterReplies.SecretReplyBack` | agent/src/backend/wire/PrompterProtocol.cpp:590-634 | a secret reply reads back with this build's version, its secret exactly when Ok; refused exactly when over the cap |
| `PrompterReplies.PairReplyBack` | agent/src/backend/wire/PrompterProtocol.cpp:710-761 | the same for the pair |
| `PrompterReplies.ConfirmReplyBack` | agent/src/backend/wire/PrompterProtocol.cpp:636-679 | a confirmation reads back |
| `PrompterReplies.ResetDoneBack` | agent/src/backend/wire/PrompterProtocol.cpp:681-708 | a reset answer reads back |
| `PrompterReplies.SecretReplySays` | agent/src/backend/wire/PrompterProtocol.cpp:383-396 | a printed secret reply, key by key |
| `PrompterReplies.PairReplySays` | agent/src/backend/wire/PrompterProtocol.cpp:416-431 | a printed pair reply, key by key |
| `PrompterReplies.ConfirmReplySays` | agent/src/backend/wire/PrompterProtocol.cpp:371-381 | a printed confirmation, key by key |
| `PrompterReplies.ResetDoneSays` | agent/src/backend/wire/PrompterProtocol.cpp:406-414 | a printed reset answer, key by key |
| `PrompterReplies.ConfirmationCarriesNoSecret` | agent/src/backend/wire/PrompterProtocol.cpp:651-653 | no message with a secret field is accepted as a confirmation |
| `PrompterReplies.RefusalReadableByAll` | prompter/PrompterServer.cpp:401-414 | a refusal sent before the type is known is read by all three status parsers, and not by the reset parser |
| `PrompterDispatch.StepInv` | prompter/PrompterServer.cpp:341-524 | every step keeps the connections' invariant |
| `PrompterDispatch.RunInv` | prompter/PrompterServer.cpp:341-524 | so does every run |
| `PrompterDispatch.OneReplyAttempt` | prompter/PrompterServer.cpp:380-510 | each connection is dispatched at most once; once no block is queued, exactly one reply attempt was made for a parsed request other than a cancel and for a too-new message, and none for anything else |
| `PrompterDispatch.DescriptorClosesOnce` | prompter/PrompterServer.cpp:358-377 | the descriptor closes once, when registry, cancel handler and reply block have all let go, and is never used after |
| `PrompterDispatch.EveryDescriptorCloses` | prompter/PrompterServer.cpp:286-324 | after a stop the handler and the reply block close every descriptor |
| `PrompterDispatch.PersonAskedOnce` | prompter/PrompterServer.cpp:425-490 | the person is asked at most once per connection and only for what the parsed request calls for, never for a confirmation of an unknown kind |
| `PrompterDispatch.PersonWasAsked` | prompter/PrompterServer.cpp:425-490 | and it was asked, with that kind of question, for every secret, pair or trust confirmation whose reply block has run |
| `PrompterDispatch.DueExactly` | prompter/PrompterServer.cpp:401-505 | what the reply block of each message is to do, message by message, both ways |
| `PrompterDispatch.DismissalsInOrder` | prompter/PrompterServer.cpp:427-433 | the windows dismissed are those of the cancels dispatched, in the order they were dispatched |
| `PrompterDispatch.FrameIsDispatched` | prompter/PrompterServer.cpp:380-510 | a frame of a registered connection is dispatched by what it parses to, with a reply block exactly when one is needed; the end of the stream dispatches nothing |
| `PrompterDispatch.Connections.AcceptOne` | prompter/PrompterServer.cpp:341-378 | keeps the invariant; an unauthorised peer gets no connection, an authorised one a new id |
| `PrompterDispatch.Connections.OnReadReady` | prompter/PrompterServer.cpp:380-510 | keeps the invariant; a frame is the connection's only dispatch, takes it out of the registry and queues a reply block exactly for a request other than a cancel or a too-new message |
| `PrompterDispatch.Connections.CancelHandler` | prompter/PrompterServer.cpp:367-376 | keeps the invariant; the descriptor closes here exactly if no reply block holds it |
| `PrompterDispatch.Connections.ReplyBlock` | prompter/PrompterServer.cpp:447-451 | keeps the invariant; the one attempt, on an open descriptor, the person asked exactly if the request calls for it, with that kind of question |
| `PrompterDispatch.Connections.RetireEvery` | prompter/PrompterServer.cpp:307-314 | keeps the invariant; every connection out of the registry and no longer reading |

## Left out

- The CBOR byte encoding, framing and reassembly, peer credentials, the rate limiter, the configuration store and the operation manager: library code that is not part of this model; their answers are parameters.
- Windows, device-owner confirmation and the `.mm` files: user interface and foreign calls.
- The prompter client's timeouts: they bound single receives, so a claim about the whole exchange would rest on library code.
- Card operations, PKCS#11 calls, visible-signature layout and the remaining handlers of the frontend: each hands over to the core after checks that a single reading settles.
- Zeroing of secrets, process hardening, file modes and logging: effects outside a functional model.
- A foreign process that swaps the socket file between the path check and the unlink: the code cannot exclude it, so ownership of the socket file is claimed among participating servers.
- Replies posted behind a final frame: `sendTo` does not test for one, so that claim is made for broadcasts only.
- The order in which roster lines and map entries are walked: the source walks them by handle text; the model allows any order and proves the lines do not depend on it.
- The attempt counts and waits of the resolve retry policy: whether a refused probe waits again is left open at every step.
- TrustGate: modelled on values, since its point is the race between threads; update in place of the in-flight set is not captured separately.
- Reference counting of descriptors and dispatch objects is counted explicitly in Listener and PrompterDispatch; aliasing of the shared pointers themselves is not modelled.
- The destructor's dropping of open connections, which calls no disconnect handler: nothing runs on the loop after it.
- Presence.DoTells: takes a property event without a card key to mean an empty slot; how clients read it is not part of this repository.
- Presence.ClientCatchesUp: rests on the same reading.
- Failures to allocate or post, for which the source logs and leaves an owner entry until its connection closes.
- The first-frame watchdog's timing: its firing is an event that may happen at any time.
