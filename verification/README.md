# Leshiy, modelled in Dafny

Leshiy carries many streams over one camouflaged connection, keeps that connection up, provisions the
servers behind it and remembers them in an encrypted vault. This project models the parts of it that
are state machines, wire formats or concurrent protocols, and proves what they promise:

- the stream multiplexer: one endpoint against any peer (`MuxEndpoint`, `MuxSafety`, `MuxExchange`), and two
  endpoints in every interleaving of their tasks and callers (`MuxStream`, `MuxProjection`,
  `MuxNaming`, `MuxSystem`), and when a send there waits for good (`MuxStall`); the imperative tasks
  and calls, tied to those atomic actions (`MuxTasks`);
- frames and the HELLO negotiation (`Frames`, `Version`);
- the reconnecting supervisor, its machine and the shell around it (`Supervisor`, `SupervisorRuns`,
  `SupervisorShell`);
- the container upgrade with rollback under any command failing (`Upgrade`);
- the helper's engine ownership under concurrent start and stop (`Runner`);
- the vault file under concurrent writers, and its records (`VaultFile`, `VaultRecords`);
- DNS over the tunnel (`DnsMessage`, `DnsQuery`, `DnsExchange`), ICMP checksums (`Icmp`), admission
  control (`ConnLimit`, `AcceptBackoff`);
- the share link, its codecs and its two parsers (`TextCodec`, `Link`, `LinkFields`).

Protocols are step functions over a state, and their theorems range over all runs. Objects the source
updates in place are classes whose methods are proved equal to those step functions or to a
specification. Time, randomness and the outcome of every outside call are parameters.

`dafny verify dfyconfig.toml` checks everything.

## Where the code does not do what one would expect

Each of these is a property one would want and the code does not have. The project keeps the code's
behaviour, gives an input that breaks the property, and proves exactly when it holds.

- **A second OPEN of a live id loses a sender.** Inserting a sink under an id that is still registered
  drops the old sink without closing its send window, so whoever waits for credit on it is never woken
  by teardown; of the calls still unfinished then, only such a send waits
  (`MuxSafety.WhoWaitsAfterTeardown`). Input: a peer that sends OPEN for id 1 twice (`MuxSafety.ReopenedIdKeepsAWaiter`).
  Exact condition: every window is closed after teardown if and only if no OPEN ever reached a live id
  (`MuxSafety.CleanTeardownIffNoReopen`). Between two endpoints running this code it never happens
  (`MuxSystem.SessionTeardown`).
- **A cancelled send loses credit, and enough of them block the stream for good.** A send dropped
  between taking its credit and finding room in the command queue never returns it (`leaked` in the
  model). Input: with the queue full, sixteen sends of a whole frame cancelled there, and a seventeenth,
  which then lacks 16282 of its 16378 bytes though nothing of the stream is in transit
  (`MuxStall.CancelsBlockASend`). Exact condition: at rest, the next chunk lacks credit if and only if what
  has leaked and what the receiver has consumed but not granted back leave less of the window than that
  chunk; while no more than `INIT_WINDOW - WINDOW_THRESHOLD` less one frame has leaked, it never does
  (`MuxStall.BlockedAtRestIff`). A send so blocked stays blocked in every continuation in which it is not
  cancelled and the stream stays whole (`MuxStall.BlockedForGood`).
- **A TCP target that begins with a scheme changes its kind.** `open("udp:h:1")` arrives as a
  datagram association, and `open("tcp:h:1")` without its prefix. A target survives if and only if it is
  not a TCP target starting with `udp:`, `icmp:` or `tcp:` (`MuxEndpoint.OpenTargetSurvives`).
- **A short HELLO may break the mirror of the idle timeouts.** Version and capabilities always agree.
  Input: both ends share the tolerance capability, and one that means 900 seconds sends only twelve bytes.
  The timeouts mirror if and only if the tolerance capability is not shared, or each end that sent the
  12-byte form meant the default (`Version.HelloAgreement`).
- **A save that reports failure may be on disk.** Syncing the directory comes after the rename, and an
  error there is returned although the new file is in place. Input: one save of a new vault whose
  directory sync fails (`VaultFile.FailedSaveOnDisk`). A call that has ended is on disk if and only if it
  succeeded or failed in that step (`VaultFile.WrittenIffSavedOrUnsynced`), and in both cases its
  holder knows the file, so a retry is not refused as stale (`VaultFile.EndedHolderKnowsTheFile`).
- **A separator in the host, the SNI or a QUIC field breaks the link.** The printer escapes nothing. Input:
  a host of `a?b`. A link is read back if and only if its host has no `?` and its SNI, QUIC address and QUIC SNI no `&`
  (`Link.RoundTripIffClean`).
- **The provisioner's field search is misled by earlier text.** It takes the first `sid=`, `quic=`,
  `qsni=` or `qcert=` anywhere in the link. A host starting with `sid=x` is enough
  (`LinkFields.HostWithASidMisleads`). The search finds what was printed under a name if and only if
  no free-form field before it holds `name=`, or the first that does goes on with the same value, and
  the value itself can be delimited (`LinkFields.SecondLookupIff`). The coincidence is real: an SNI of `sid=`
  and the right hex is read correctly (`LinkFields.SniMayRepeatTheSid`).
- **A DNS reply cut off inside its header or its questions is accepted if it announces no answers.**
  Input: the first eight bytes of such a reply (`DnsMessage.CutHeaderIsAccepted`). An accepted message is a
  whole one if and only if its questions end inside it; otherwise it yields no address
  (`DnsMessage.AcceptedIffQuestionsFit`).
- **The kill switch has one way out besides the user.** A proxy that points at the tunnel stops doing
  so if and only if the user disconnects, or a dial the user asked for succeeds, the listener is bound
  and setting the system proxy fails (`SupervisorRuns.KillSwitchHolds`). Input: connect; the tunnel drops; the
  redial succeeds but its listener cannot be bound; connect again; setting the proxy, which points at the
  tunnel all this time, fails (`SupervisorRuns.KillSwitchWayOut`).
- **A very long ICMP message gets a wrong checksum.** The 32-bit accumulator loses its carries. Input:
  131078 bytes of all ones (`Icmp.LongMessageFails`). Exact condition: the message verifies if and only if
  the number of lost carries is a multiple of 65535, so always up to 131072 bytes, which no IP datagram
  reaches (`Icmp.SetV4Checksum`, `Icmp.SetV6Checksum`).

## Model

| member | source | states |
|---|---|---|
| Frames.FrameRoundTrip | crates/leshiy-core/src/frame.rs:58-92 | Every frame is decoded from its encoding; a buffer decodes only if it is the encoding of some frame, and then of the one decoded |
| Frames.FrameLayout | crates/leshiy-core/src/frame.rs:58-72 | The bytes of a frame: the id with its most significant byte first, the type byte, the payload |
| Version.HelloSurvives | crates/leshiy-core/src/version.rs:107-134 | A HELLO followed by anything is read back; cut to between 12 and 15 bytes it is read with the default tolerance; cut shorter it is refused |
| Version.HelloLayout | crates/leshiy-core/src/version.rs:102-118 | The bytes of a HELLO: version, minimum, capabilities and tolerance, each with its most significant byte first |
| Version.EachToleratesWhatTheOtherAsked | crates/leshiy-core/src/version.rs:139-166 | With bit 4 set at both ends, an end tolerates the other's request, held between 15 and 900 seconds, or 45 if it came in the short form, and believes the other tolerates its own request likewise; otherwise both are 45 |
| Version.HelloAgreement | crates/leshiy-core/src/version.rs:120-166 | Whatever form each end sends, both ends succeed or both fail, with one version and one capability set; what each tolerates is clamped, and mirrors the other's exactly under a stated condition on the short forms |
| Version.VersionIsTheNewestShared | crates/leshiy-core/src/version.rs:139-150 | For either form, the ends go on if and only if some version suits both, and then both run the newest such version |
| Version.NoCapabilityAlone | crates/leshiy-core/src/version.rs:139-166 | For either form, a capability is on at an end if and only if both advertised it, so at both ends or neither |
| Version.TimeoutsMirror | crates/leshiy-core/src/mux.rs:568-583 | With equal fallbacks, the silence each end tolerates is what the other believes it does, if and only if tolerances are not in use or each end that sent the short form wants the default |
| Version.TimeoutsAreWhatWasAsked | crates/leshiy-core/src/mux.rs:568-583 | The two timeouts the multiplexer runs on are those values, in that order, or its own fallback twice where tolerances are not in use |
| MuxEndpoint.OpenTargetSurvives | crates/leshiy-core/src/mux.rs:124-138 | Kind and target come out of an OPEN payload as they went in if and only if it is not a TCP target that starts with a scheme |
| MuxSafety.StepKeepsInv | crates/leshiy-core/src/mux.rs:501-738 | Every action of the writer, reader, watchdog or a caller keeps the endpoint invariant: each open window is registered, queued or clobbered, exactly one of these, under exactly one id; caps and counters hold; tasks finish in order |
| MuxSafety.BoundedAgainstAnyPeer | crates/leshiy-core/src/mux.rs:628-696 | In every run against any frames, each stream's byte counter is what is queued on it, within the byte and message caps, and peer-opened registered streams stay within 1024 |
| MuxSafety.OverflowIsIsolated | crates/leshiy-core/src/mux.rs:651-684 | In every reachable state, a DATA or DATAGRAM frame removes and shuts its stream if and only if it does not fit, and then owes one CLOSE; if it fits nothing changes but that queue; every other id keeps its key and stream either way |
| MuxSafety.TeardownLeavesNoWaiter | crates/leshiy-core/src/mux.rs:550-562 | Once writer and reader are done, closure is latched, registry and queue are empty, and the windows still open are exactly those of clobbered sinks |
| MuxSafety.WhoWaitsAfterTeardown | crates/leshiy-core/src/mux.rs:290-321 | Once writer and reader are done, an unfinished send waits if and only if flow control is on, its sink was clobbered and it lacks credit; any other fails; and every receive returns |
| MuxSafety.CleanTeardownIffNoReopen | crates/leshiy-core/src/mux.rs:414-425 | Teardown closes every window if and only if no OPEN, local or from the peer, ever reached a live id in the run |
| MuxSafety.ReopenedIdKeepsAWaiter | crates/leshiy-core/src/mux.rs:639-645 | After a peer opens id 1 twice, the first stream's window stays open whatever happens next |
| MuxExchange.ReaderOnControl | crates/leshiy-core/src/mux.rs:628-728 | By type byte: a PING owes one PONG, a PONG, an unknown type or a short credit changes nothing, an unknown critical type stops the reader |
| MuxExchange.ReaderOnCredit | crates/leshiy-core/src/mux.rs:685-703 | A WINDOW_UPDATE adds its big-endian amount, at most 262144, to its stream's permits under flow control, and nothing else |
| MuxExchange.ReaderOnClose | crates/leshiy-core/src/mux.rs:704-711 | A CLOSE unregisters its stream and closes its window, and touches no other |
| MuxExchange.ReaderOnOpen | crates/leshiy-core/src/mux.rs:630-650 | An OPEN registers a stream with a full window and nothing received, unless 1024 are registered: then the reader stops |
| MuxExchange.OpenArrives | crates/leshiy-core/src/mux.rs:832-851 | What a call to open writes makes a stream of the same id at the other end, of the same kind if and only if it is not a TCP target that begins with another kind's scheme |
| MuxExchange.CloseArrives | crates/leshiy-core/src/mux.rs:323-337 | A close ends the stream here when its CLOSE is taken for writing, and at the other end when it arrives |
| MuxProjection.EveryActionIsOneEvent | crates/leshiy-core/src/mux.rs:501-738 | Every action of a whole endpoint is, seen from any one stream id, one possible event of the single-stream machine, and the two views commute |
| MuxSystem.CreditIsConserved | crates/leshiy-core/src/mux.rs:290-321 | In every reachable session and for each direction of an unbroken stream (both writers run and neither end has removed it), permits, held, leaked, in flight, queued, consumed and returning credit add up to the initial window |
| MuxSystem.NoCreditDeadlock | crates/leshiy-core/src/mux.rs:301-321 | When nothing of a stream is in transit or waiting to be read, the sender's credit plus what cancelled sends have lost exceeds INIT_WINDOW - WINDOW_THRESHOLD |
| MuxStall.WindowAtRest | crates/leshiy-core/src/mux.rs:290-321 | When nothing of a stream is in transit, unread or held, the sender's credit, what cancelled sends have lost and what the receiver has not yet granted back are exactly the initial window |
| MuxStall.BlockedAtRestIff | crates/leshiy-core/src/mux.rs:245-321 | At rest, a send lacks credit for its next chunk if and only if leaked and ungranted bytes leave less than that chunk of the window; never while the leak is within a named bound |
| MuxStall.BlockedForGood | crates/leshiy-core/src/mux.rs:245-321 | In every run that follows, over all tasks and calls of both ends, a send blocked at rest can neither acquire nor fail, unless it is cancelled or the stream or a writer ends |
| MuxStall.CancelsBlockASend | crates/leshiy-core/src/mux.rs:245-300 | A run from a new session to a send blocked at rest with 96 bytes of credit and 262048 leaked |
| MuxSystem.GuardsNeverAct | crates/leshiy-core/src/mux.rs:656-696 | Between two endpoints of this kind a WINDOW_UPDATE never exceeds the clamp, and an arriving frame never takes a stream past the initial window, far below the byte cap |
| MuxSystem.DeliveredInOrder | crates/leshiy-core/src/mux.rs:245-321 | What a receiver has returned is always a prefix of what the peer has sent, and of what its caller asked for unless a send was cancelled; once drained, on an unbroken stream, it is all of it |
| MuxSystem.NoReplyMissesItsSink | crates/leshiy-core/src/mux.rs:509-514 | When any frame for a locally opened id is about to be read, that stream is known and its sink is no longer waiting in the queue |
| MuxSystem.SessionTeardown | crates/leshiy-core/src/mux.rs:414-425 | In every session of two endpoints, an end whose tasks are done has closed every window |
| MuxSystem.NoCallWaitsAfterTeardown | crates/leshiy-core/src/mux.rs:245-321 | In a session of two endpoints, once an end's tasks are done no call on any of its streams waits: unfinished sends fail, at once with flow control, and receives return |
| MuxSystem.NamesAreFresh | crates/leshiy-core/src/mux.rs:832-851 | In every reachable session the id an end allocates next, and the id of an OPEN about to reach it, name no stream it has |
| MuxTasks.Mux.ReadFrame | crates/leshiy-core/src/mux.rs:611-728 | The reader's handling of a frame, branch by branch on mutable state, is the model's one receiving action |
| MuxTasks.Mux.ReaderExit | crates/leshiy-core/src/mux.rs:729-737 | Leaving the reader ends in the state the stopping actions lead to |
| MuxTasks.Mux.WriteNext | crates/leshiy-core/src/mux.rs:508-543 | Taking a command and writing it leaves the state WriteNextIsARun shows to be two atomic actions |
| MuxTasks.Mux.WriterExit | crates/leshiy-core/src/mux.rs:550-562 | Draining the queue, closing each queued open's window, and the final sweep end in the state WriterLeaves shows to be a run |
| MuxTasks.Mux.CloseAllStreams | crates/leshiy-core/src/mux.rs:414-425 | The loop over the drained registry closes exactly the registered windows and empties the registry |
| MuxTasks.Mux.Open | crates/leshiy-core/src/mux.rs:832-851 | Opening queues one OPEN under the next id, or, refused, changes nothing but that it skips the id |
| MuxTasks.Mux.Send | crates/leshiy-core/src/mux.rs:245-300 | The chunking loop reaches the state and result the pump gives; an oversized datagram changes nothing |
| MuxTasks.SendMeans | crates/leshiy-core/src/mux.rs:245-300 | A send is refused for length exactly if it is a datagram over 16378 bytes; it waits only for credit its next chunk lacks or with 256 commands queued; it fails only on a closed window or queue; reporting success it has queued all its bytes, as DATA or DATAGRAM frames of its stream |
| MuxTasks.PiecesAreWhole | crates/leshiy-core/src/mux.rs:254-262 | TCP bytes are cut into frames of 16378 bytes and a non-empty rest |
| MuxTasks.SendIsARun | crates/leshiy-core/src/mux.rs:245-300 | A whole send, however it ends, is a run of the atomic actions all session theorems range over |
| MuxTasks.PumpKeepsChunks | crates/leshiy-core/src/mux.rs:245-300 | A send touches no other stream, loses and reorders no chunk unless the session has closed, and is idle again when it reports success |
| MuxTasks.Mux.Recv | crates/leshiy-core/src/mux.rs:301-321 | The receive with its pending payload and deferred credit update reaches the state ReceivedIsARun shows to be a run |
| MuxTasks.ReceiveStops | crates/leshiy-core/src/mux.rs:301-321 | A receive stops without its chunk exactly if half a window is owed and the open queue is full; otherwise it returns the next chunk and queues one WINDOW_UPDATE for what is owed, if that is half a window |
| MuxTasks.ReceivedInOrder | crates/leshiy-core/src/mux.rs:230-321 | A receive returns the oldest undelivered chunk and appends just it to what was delivered; one abandoned while its credit update waits for room loses nothing |
| Supervisor.ReactKeeps | crates/leshiy-client/src/runtime.rs:156-325 | Every event the loop can see, with any outcome of binding and proxy calls, keeps the shell's invariant |
| SupervisorRuns.NoLostWakeUp | crates/leshiy-client/src/supervisor.rs:91-226 | In every reachable state, connecting means one live dial; reconnecting while online means exactly one live dial or timer; every other state has none |
| SupervisorRuns.DisconnectIsFinal | crates/leshiy-client/src/runtime.rs:252-287 | After a disconnect, whatever late dials, timers and drops arrive, until the user connects there is no tunnel, no service, no dial and no proxy setting |
| SupervisorRuns.PublishedStateIsTrue | crates/leshiy-client/src/runtime.rs:161-250 | The published state is the machine's; Connected means a listener serves this generation's tunnel and the proxy points at it; Disconnected means the proxy is off |
| SupervisorRuns.KillSwitchHolds | crates/leshiy-client/src/supervisor.rs:91-226 | With the kill switch, one event takes the proxy off the tunnel if and only if it is the user's disconnect or a first connect whose proxy setting fails |
| SupervisorRuns.KillSwitchWayOut | crates/leshiy-client/src/runtime.rs:161-287 | A run without a disconnect after which a dial that succeeds takes the proxy off the tunnel, or leaves it in doubt |
| SupervisorRuns.WhatTheUserDoes | crates/leshiy-client/src/runtime.rs:252-270 | A connect from rest starts one dial; a disconnect ends in Disconnected with the proxy off, unless the proxy had to be cleared and could not be |
| SupervisorRuns.WhatADialDoes | crates/leshiy-client/src/supervisor.rs:91-226 | A failed first dial is an Error and a failed redial schedules one timer; a successful one connects if and only if the listener is bound and the proxy set, or kept by the kill switch |
| SupervisorRuns.WhatTheNetworkDoes | crates/leshiy-client/src/supervisor.rs:91-226 | A drop schedules one retry after the base delay; a timer dials if the network is there; a network that returns dials at once |
| SupervisorRuns.RetriesBackOff | crates/leshiy-client/src/supervisor.rs:58-226 | Over every run, a waiting retry was scheduled with min(base * 2^min(n, 16), max), where n counts, on the run's events, the redials failed since the later of the last drop and the last return of the network |
| SupervisorRuns.BackoffDoubles | crates/leshiy-client/src/supervisor.rs:58-63 | Delays start at the base, double up to the cap, and are constant from the sixteenth attempt |
| SupervisorRuns.BackoffGrowsToItsCap | crates/leshiy-client/src/supervisor.rs:58-63 | A later attempt never waits less, and none waits longer than the cap |
| SupervisorShell.Machine.Handle | crates/leshiy-client/src/supervisor.rs:91-226 | The mutable machine computes the transition and actions the run theorems are about |
| SupervisorShell.Inner.Apply | crates/leshiy-client/src/runtime.rs:161-250 | The loop over actions, with re-entry into the machine when one fails, computes the modelled effect |
| SupervisorShell.Inner.Turn | crates/leshiy-client/src/runtime.rs:295-325 | One turn of the event loop is one modelled reaction and keeps the invariant |
| Upgrade.ImageRefAlphabet | crates/leshiy-provision/src/engine.rs:134-140 | Names may hold ASCII letters, digits and `._-/:@` |
| Upgrade.Operator.RunContainer | crates/leshiy-provision/src/engine.rs:797-825 | Success means a new running container of the image under that name; failure means a command went wrong; only a lost port race is retried, five attempts in all; nothing else on the host changes |
| Upgrade.Operator.WaitReady | crates/leshiy-provision/src/engine.rs:615-628 | Success means that container has answered; a missing answer is retried up to fifteen times, and given up before only on another reply; failure with the container there means a command went wrong |
| Upgrade.Operator.Upgrade | crates/leshiy-provision/src/engine.rs:475-613 | For any fault on any command: the image is pulled first, then the old container renamed and stopped; after every command it exists under its own or its recovery name unless the new one serves; the record changes only on success; each outcome says truly what is on the host; short of success something went wrong, and a rollback is given up only if two commands did |
| Runner.OneEngineAtATime | crates/leshiy-helper/src/runner.rs:202-248 | In every interleaving of starts, stops and workers, at most one engine is alive, and while it is a further start is refused |
| Runner.StopReturnsAfterCleanup | crates/leshiy-helper/src/runner.rs:269-285 | A stop that returned after joining a worker returned after that worker's clean-up |
| Runner.StopLeavesNothing | crates/leshiy-helper/src/runner.rs:269-285 | When a stop publishes, no engine is alive, the slot is empty, the lock is free and the state is Disconnected |
| Runner.CancelIsNotLost | crates/leshiy-helper/src/runner.rs:202-248 | A cancel request is seen in whichever phase it finds the worker: before, during or after start-up |
| Runner.StartIsAdmittedIff | crates/leshiy-helper/src/runner.rs:202-230 | In every reachable state a start is admitted if and only if no call has the lock and no engine is left |
| Runner.IdleStartRuns | crates/leshiy-helper/src/runner.rs:202-248 | From rest a start makes a worker, whose engine runs as Connected if preparation succeeds, and which leaves all at rest and Disconnected if it fails |
| Runner.StopBegins | crates/leshiy-helper/src/runner.rs:269-280 | A stop that gets the lock asks the engine in the slot to end and drains it, or has nothing to join |
| Runner.DrainCanFinish | crates/leshiy-helper/src/runner.rs:269-285 | From any state in which a stop drains a worker, that worker's and the stop's own steps lead to the stop's return with all at rest |
| Runner.PublicStateIsTrue | crates/leshiy-helper/src/runner.rs:202-285 | Connected is shown for a running or cleaning engine, Connecting for a preparing one, and Disconnected once the lock is free and none is alive |
| Runner.AbandonedStopKeepsOwnership | crates/leshiy-helper/src/runner.rs:269-285 | A stop that gives up waiting leaves the draining engine owned, cancelled, and further starts refused |
| VaultFile.NoLostUpdates | crates/leshiy-provision/src/vault.rs:219-270 | For any number of holders and processes, every write follows the content its holder had last seen, the log of each path is one chain from the initial file to the present one, and no blob is written twice |
| VaultFile.WrittenIffSavedOrUnsynced | crates/leshiy-provision/src/vault.rs:219-270 | A call that has ended is in the log if and only if it succeeded or failed in syncing the directory after the rename |
| VaultFile.FailedSaveOnDisk | crates/leshiy-provision/src/vault.rs:254-270 | A run in which the one save of a new vault reports failure while its blob is the file |
| VaultFile.EndedHolderKnowsTheFile | crates/leshiy-provision/src/vault.rs:254-270 | However a call ends after the rename, the file is its blob and its holder's snapshot is the file |
| VaultFile.SaveIsRefusedIff | crates/leshiy-provision/src/vault.rs:219-247 | In every run, a save is locked out exactly if its lock is taken or its transaction is on another path, and refused as stale exactly if the file is not what its holder last loaded or wrote |
| VaultFile.UndisturbedSaveSucceeds | crates/leshiy-provision/src/vault.rs:219-270 | With the file known to the holder and the lock free, every step of a save can be taken and it ends Saved, its blob the file and the holder's snapshot, all else as it was |
| VaultFile.LoadedVaultCanBeSaved | crates/leshiy-provision/src/vault.rs:181-270 | Loading a path and saving to it, undisturbed, succeeds whether or not there was a file |
| VaultFile.TransactionCanSave | crates/leshiy-provision/src/vault.rs:194-270 | From a free lock, loading locked and saving, undisturbed, succeeds, and the lock stays the holder's |
| VaultFile.TransactionExcludesWriters | crates/leshiy-provision/src/vault.rs:194-217 | While a holder has loaded a path locked, only its own saves write that path |
| VaultRecords.Vault.Index | crates/leshiy-provision/src/vault.rs:272-283 | A key finds the first record with that id, else the only one with that label; nothing is found only if there is neither |
| VaultRecords.Vault.Upsert | crates/leshiy-provision/src/vault.rs:286-292 | The record replaces the one with its id in place, or is appended |
| VaultRecords.Vault.ImportRecords | crates/leshiy-provision/src/vault.rs:353-368 | The import is the merge; added and replaced add up to the backup's length, and the vault grows by the added ones |
| VaultRecords.Vault.Remove | crates/leshiy-provision/src/vault.rs:302-308 | A key that names a record removes that one and keeps the others in order; any other key changes nothing |
| VaultRecords.MergeTakesTheBackup | crates/leshiy-provision/src/vault.rs:353-368 | A merge of distinct ids keeps them distinct and holds exactly the backup's records and the others whose id it lacks |
| VaultRecords.OwnBackupIsNeutral | crates/leshiy-provision/src/vault.rs:353-368 | Importing records the vault already holds changes neither records nor order |
| VaultRecords.RestoreIsExport | crates/leshiy-provision/src/vault.rs:343-368 | Importing an exported vault into an empty one gives the same records in the same order |
| DnsExchange.Exchange | crates/leshiy-mobile/src/dns.rs:73-110 | For non-empty chunks of at most 65535 bytes, the read loop's answers are those of the whole byte stream, however it is cut, and the call succeeds if and only if every query was answered; for any chunks, they are those of the chunks read |
| DnsExchange.WalkInPieces | crates/leshiy-mobile/src/dns.rs:82-108 | Walking two pieces one after the other, carrying the rest over, is walking them joined |
| DnsExchange.WalkReadsFrames | crates/leshiy-mobile/src/dns.rs:82-108 | Any sequence of length-prefixed messages is absorbed message by message, leaving just the incomplete tail |
| DnsExchange.AbsorbsCollected | crates/leshiy-mobile/src/dns.rs:82-108 | Whatever order pending ids are kept in, the addresses collected are those of one reply for each time its id was asked, message by message, and the ids left are the unanswered |
| DnsExchange.ExchangeGivesEveryAnswer | crates/leshiy-mobile/src/dns.rs:73-110 | With one reply to each query, in any order and cut anywhere, nothing stays pending and the result is all addresses of all replies |
| DnsExchange.SecondReplyIsIgnored | crates/leshiy-mobile/src/dns.rs:95-106 | A second message under an id asked once changes nothing, whatever it holds |
| DnsMessage.ParsesEveryMessage | crates/leshiy-mobile/src/dns.rs:140-180 | Every wire message, names ending in a compression pointer and trailing bytes included, is read record by record, or refused on id or code |
| DnsMessage.ReplyGivesItsAddresses | crates/leshiy-mobile/src/dns.rs:140-168 | A wire message is accepted if and only if id, response bit and code are right and every class-1 record of type 1 or 28 has 4 or 16 octets; it gives, in order, exactly those octets that are neither all zero nor loopback |
| DnsMessage.ParsesOnlyMessages | crates/leshiy-mobile/src/dns.rs:140-180 | Whatever is accepted with its questions inside it is a wire message of that id, and its addresses were returned |
| DnsMessage.AcceptedIffQuestionsFit | crates/leshiy-mobile/src/dns.rs:140-180 | An accepted message is a wire message if and only if its questions end inside it; otherwise it announces no answers and yields none |
| DnsMessage.CutHeaderIsAccepted | crates/leshiy-mobile/src/dns.rs:140-168 | Eight bytes of header with both counts zero are accepted, and are no message |
| DnsMessage.ParseAnswersLoop | crates/leshiy-mobile/src/dns.rs:140-168 | The loops over an index compute the parse these theorems are about |
| DnsQuery.BuildQuery | crates/leshiy-mobile/src/dns.rs:112-137 | A query is built if and only if the host is a valid name, and is the query for it |
| DnsQuery.QueryAsksForItsHost | crates/leshiy-mobile/src/dns.rs:112-137 | A query's twelve header bytes and its last four are as given; in between stands the wire form of a name whose labels joined with dots are the host; it has at most 271 bytes, and the parser skips the name exactly |
| DnsQuery.ValidHostsReadAsHosts | crates/leshiy-mobile/src/dns.rs:112-137 | A host is valid if and only if, a trailing dot aside, it has 1 to 253 bytes, all letters, digits, `-`, `_` or dots, 1 to 63 between dots |
| Icmp.FieldVerifies | crates/leshiy-core/src/icmp.rs:95-115 | The computed checksum makes a message verify, and it is the only field value that does but for the two zeros of one's complement |
| Icmp.ChangedWordIsNoticed | crates/leshiy-core/src/icmp.rs:95-115 | Changing any one word of a message that verifies makes it fail, but between the two zeros |
| Icmp.PseudoLayout | crates/leshiy-core/src/icmp.rs:134-150 | The 40 bytes of the pseudo-header: both addresses, the 32-bit length, three zeros and 58 |
| Icmp.SetId | crates/leshiy-core/src/icmp.rs:84-92 | The identifier is replaced and the checksum cleared, nothing else; a short message is left as it was |
| Icmp.SetV4Checksum | crates/leshiy-core/src/icmp.rs:95-131 | For a message of any length, only the checksum field changes, and the message then verifies if and only if the carries the 32-bit accumulator lost cancel, so always up to 131072 bytes |
| Icmp.SetV6Checksum | crates/leshiy-core/src/icmp.rs:134-175 | The same under the pseudo-header of its addresses and its length as 32 bits |
| Icmp.LongMessageFails | crates/leshiy-core/src/icmp.rs:95-131 | The checksum written into 131078 bytes of all ones does not verify |
| Icmp.RestoreReply | crates/leshiy-reality/src/server.rs:515-523 | A reply gets the client's identifier and a checksum that verifies on that condition, and changes nowhere else |
| ConnLimit.ConnLimiter.TryAcquire | crates/leshiy-reality/src/connlimit.rs:80-98 | Admits if and only if neither the total nor the source's live guards have reached their cap, and the counts stay exactly those of the live guards |
| ConnLimit.ConnLimiter.Drop | crates/leshiy-reality/src/connlimit.rs:53-64 | A dropped guard is uncounted once in both tallies, and its source is forgotten exactly when it was the last |
| ConnLimit.BucketsAreNetworks | crates/leshiy-reality/src/connlimit.rs:21-31 | Two addresses share a bucket if and only if they are equal or lie in the same IPv6 /64 |
| AcceptBackoff.AcceptBackoff.RecordFailure | crates/leshiy-reality/src/acceptloop.rs:76-102 | The mutable counter computes the step the run theorems below are about |
| AcceptBackoff.AcceptBackoff.RecordSuccess | crates/leshiy-reality/src/acceptloop.rs:69-73 | A success ends the run: the state is a new one's |
| AcceptBackoff.AttemptsAreBounded | crates/leshiy-reality/src/acceptloop.rs:76-102 | Any stretch of T ms of a failing run holds at most T / 1000 + 8 attempts |
| AcceptBackoff.LogsAreBounded | crates/leshiy-reality/src/acceptloop.rs:76-102 | Any stretch of T ms holds at most T / 30000 + 1 log lines |
| AcceptBackoff.DelaysNeverShrink | crates/leshiy-reality/src/acceptloop.rs:76-102 | Within a run delays never shrink and lie between 5 ms and 1 s |
| AcceptBackoff.DelayDoubles | crates/leshiy-reality/src/acceptloop.rs:76-102 | The i-th delay of a run is min(5 * 2^i, 1000) ms |
| AcceptBackoff.LoggedIff | crates/leshiy-reality/src/acceptloop.rs:76-102 | A failure is logged if and only if none was before in the run or the last line is 30 s old |
| AcceptBackoff.EveryFailureIsCounted | crates/leshiy-reality/src/acceptloop.rs:76-102 | Log lines, the failures they report as suppressed and those still to report add up to the failures so far |
| TextCodec.Base64RoundTrip | crates/leshiy-reality/src/config.rs:70-91 | Unpadded URL-safe base64 of any bytes decodes to them |
| TextCodec.DecodesOnlyEncodings | crates/leshiy-reality/src/config.rs:99-112 | A text that decodes as base64 is the one its bytes are written as |
| TextCodec.SpellsItsNumber | crates/leshiy-reality/src/config.rs:70-91 | Each three bytes are written as the four digits of their number, highest first, a shorter end filled up with zero bits |
| TextCodec.HexRoundTrip | crates/leshiy-reality/src/config.rs:70-91 | Hex of any bytes decodes to them |
| TextCodec.HexSpellsItsBytes | crates/leshiy-reality/src/config.rs:70-91 | Two lower-case digits a byte, the high one first |
| Link.RoundTripIffClean | crates/leshiy-reality/src/config.rs:70-174 | A link is read back whole from its printed form if and only if its host has no `?` and its other free fields no `&` |
| Link.ParseIff | crates/leshiy-reality/src/config.rs:99-174 | A text is accepted as a link if and only if it has the link's outer shape, a 32-byte key in base64, and among its pairs, last of each name, an SNI, an 8-byte short id, and with `quic` a `qsni` and at most a 32-byte certificate hash |
| Link.ParseUri | crates/leshiy-reality/src/config.rs:99-174 | The parser with its loop over key-value pairs is the parse the round trip is about |
| LinkFields.SecondLookupIff | crates/leshiy-provision/src/engine.rs:95-130 | The textual search finds what was printed under a name if and only if a condition on the fields alone holds |
| LinkFields.ParsersAgreeIff | crates/leshiy-provision/src/engine.rs:95-130 | For a clean link the provisioner's fields are the client's if and only if that condition holds for the names involved |
| LinkFields.SecondParserAgrees | crates/leshiy-provision/src/engine.rs:95-130 | They agree on every link whose host and SNI hold no `=` and whose QUIC fields are not empty and hold neither `=` nor a separator |
| LinkFields.HostWithASidMisleads | crates/leshiy-provision/src/engine.rs:95-114 | A clean link whose host starts with `sid=x` parses, but the provisioner reads another short id |
| LinkFields.SniMayRepeatTheSid | crates/leshiy-provision/src/engine.rs:95-114 | An SNI that is `sid=` and the right hex does not mislead it |

## Left out

- Cryptography: the REALITY handshake, sealing and opening of vault blobs, key derivation. A vault blob is a fresh number, so sealing is taken to be injective.
- Sockets, TLS, QUIC, the TUN device, SSH and the operating system's proxy settings: each outside call is a step that may succeed or fail.
- Docker: a command's effect on named containers, and any failure before or after that effect, but not its command line, ports, environment or output text.
- The keepalive sender and the round-trip clock of the multiplexer: any read may end the reader at any time, which covers its timeouts.
- The queue of accepted streams: its back-pressure on the reader is not modelled, so an accepted stream is at once in its caller's hands.
- Two sends at once on one stream: a caller starts a send only when its last one has ended, so runs in which two overlap are outside every session theorem. Callers serialise them.
- Where a send may be cancelled: the model allows it at any point between its steps, the runtime only where it is suspended.
- Overflow checks: integer arithmetic is that of a release build, which wraps; a debug build stops with a panic instead.
- Integer width: stream ids are 32-bit, but `next_id` stops being usable at the end of its range instead of wrapping; the supervisor's generation counter is unbounded.
- Targets are bytes: replacing invalid UTF-8 in an OPEN payload is not modelled.
- Panics: a worker that panics, a poisoned lock or a killed process. In the helper, a worker always finishes.
- VaultFile and Runner are step systems rather than classes, since what they prove is about the interleaving of calls; update in place within one call is not captured there.
- Dispatch from the client's and server's listeners to streams, the outer reconnect loop, traffic statistics, progress events, the graphical and mobile front ends: mostly forwarding, and they would add only easy members.
- Frames.FrameRoundTrip: the encoding's size limit is not part of the format; the payload limit is enforced where data is chunked, and targets are not checked against it.
