# A verified model of a confidential-realm control plane

The system has two sides. On the host, the warden daemon creates realms (virtual machines),
starts, stops and reboots them on behalf of its clients, keeps a disk for every
application, and sets up the network between them. Inside each realm an application manager
installs, measures and supervises the applications. This project models the stateful parts of
both sides in Dafny and proves what every run of them keeps.

`dafny verify dfyconfig.toml` checks all of it.

## How the model is built

- Objects that update their fields one call at a time are classes: the realm manager with its VM
  runner, the application and its disk manager, the realm client handler, the vsock server, the
  packet-filter tables, the image launcher, the provisioning manager. Every method is proved equal
  to a function on values, and the properties are proved about those functions.
- Parts that run concurrently are transition systems: a `System` value, actions, and a `Next`
  that is undefined where an action is not enabled. Properties hold for every list of actions.
- Every outside call (spawn, kill, wait, save, send, receive, install, the hardware) is an input
  that decides its success or failure. Signature checks, hashes and decoders are function-valued
  parameters. A timeout is a step that may happen at any time.

| file | subject |
|---|---|
| `Supervisor.dfy` | the supervisor of one application: caller, worker and process |
| `Registry.dfy` | realm handles and locks under any number of clients |
| `LockOrder.dfy`, `Blocking.dfy` | the lock programs of all client commands, and when they block each other |
| `RealmLifecycle.dfy`, `RealmManagement.dfy` | the realm's states, VM handle and provisioning data |
| `RealmSession.dfy` | the realm's commands composed with the protocol of its connection |
| `Application.dfy`, `AppDisk.dfy` | application configuration, disk and partition layout |
| `RealmLink.dfy` | requests and replies between warden and realm |
| `Rendezvous.dfy` | how a connecting realm finds the call that waits for it |
| `Netfilter.dfy`, `NatRouting.dfy`, `PacketFlow.dfy` | packet-filter tables: set-up, cleanup, meaning |
| `OciInstall.dfy`, `Provisioning.dfy` | image installation and measurement order |
| `AddressPool.dfy`, `Addresses.dfy` | the DHCP pool; addresses and networks |
| `Latches.dfy`, `Outcomes.dfy` | shared definitions |

## Where the code departs from the expected

Each of these is proved as an exact condition, with a concrete run where it is about runs.

- Starting or rebooting a realm takes the client lock before the application locks, starting or
  stopping an application takes them the other way round. `CanBlockIff` says exactly which
  commands, arriving in which states of their realms, can reach a circular wait.
- A start that cannot build its provisioning data leaves the realm in Provisioning, which no
  command leaves again, not even its destruction (`ProvisioningIsFinal`). A failed start or token
  fetch can leave a halted realm with a VM handle, which never starts again; its destruction
  removes it even if the VM cannot be ended (`StrandedIsFinal`).
- A stop whose VM shutdown fails has already dropped the connection: the realm stays up, and every
  later stop, reboot, token fetch and destruction fails (`SeveredIsFinal`).
- A reboot that reaches the restarted realm without an acknowledgement, or that never reaches it,
  leaves the state as it was, so Running then describes a realm that was not told its applications
  or was sent away (`UntoldAccount`, `SentAwayAccount`).
- A VM that exits by itself leaves its realm Running on a dead connection, since the status is asked
  for only after a failed start; a stop gets it back only if the connection reports a reset
  (`GoneAccount`, `StopOfGone`).
- A stop of an application whose process ignores the signal keeps the realm's request loop waiting;
  until the process exits nothing asked of the realm succeeds, not even its shutdown
  (`SilentRealmStaysActive`).
- A failed save has already changed the configuration in memory (`DesyncIff`).
- `update_config` accepts sizes that the disk later rejects, and an application with such a size
  cannot be loaded again (`UpdateTakesAnySizes`, `HistoryNoneIff`). A recreation of the disk that
  fails after the sizes were recorded makes all later starts fail until a reload
  (`DisagreementIsStuck`).
- A disk that cannot be read when the application is loaded is made anew, with new GUIDs
  (`DiskChangesIff`).
- After a read that timed out, the next reply read is an old one (`StaleSuccess`).
- A connection nobody waits for, or that comes too late, ends the vsock listener
  (`ListenerSurvivesIff`).
- An application handle may outlive its realm (`OrphanAccount`).
- The accept rule for traffic from the bridge to the bridge is never reached. The second exempt
  destination of the masquerade rules is 225.255.255.255, not the broadcast address; the model
  keeps the literal.
- An installation that fails after another application finished makes every later provisioning
  request fail (`RepeatableIff`).
- The launch reads its record through the overlay, so a metadata file on the data partition would
  take precedence over the verified one (`LaunchMatchesMeasurementIff`).
- The client count is not checked against the network size (`GoodPoolIff`).

## Model

| member | source | states |
|---|---|---|
| `Supervisor.NextKeeps` | realm/app-manager/src/launcher/handler.rs:102-393 | Every atomic step of caller, worker or process keeps the protocol invariant: message, worker position, child status and caller position fit together for the current worker, and every other worker is detached. |
| `Supervisor.RunKeeps` | realm/app-manager/src/launcher/handler.rs:102-393 | The invariant holds after every interleaving that starts with no worker. |
| `Supervisor.ProtocolSafety` | realm/app-manager/src/launcher/handler.rs:102-118 | In every interleaving at most one message is under way over all channels of all workers, and no call ever ends with an invalid response or a closed-channel error. |
| `Supervisor.TerminalReplyIffLeaving` | realm/app-manager/src/launcher/handler.rs:187-246 | The worker of the open channel is leaving its loop exactly when a terminal reply is under way or has been taken, so the join that follows a terminal reply can complete. |
| `Supervisor.NobodyWaitsForTheOther` | realm/app-manager/src/launcher/handler.rs:259-305 | The caller never awaits a reply while the worker awaits a request and no message is under way. |
| `Supervisor.CallCanProceed` | realm/app-manager/src/launcher/handler.rs:102-134 | In every state with a call in progress a party of that call has an enabled step, unless a stop or kill waits for the signalled process to exit. |
| `Supervisor.CallTerminates` | realm/app-manager/src/launcher/handler.rs:362-393 | Every step of a call's own parties lowers a bound that is at most 43. |
| `Supervisor.OthersDoNotDelay` | realm/app-manager/src/launcher/handler.rs:259-305 | No exit of a process, line of output or step of another worker raises that bound or moves the caller. |
| `Supervisor.CallReturns` | realm/app-manager/src/launcher/handler.rs:102-134 | In every run, whatever the others do in between, a call takes at most 43 actions of its own parties until it returns. |
| `Supervisor.WaitsUntilExit` | realm/app-manager/src/launcher/handler.rs:187-219 | A stop or kill whose process has not exited waits, over every run, until that process exits; the caller can do nothing else meanwhile. |
| `Supervisor.ExitReportedOnce` | realm/app-manager/src/launcher/handler.rs:362-393 | Over any sequence of start, stop, kill and try_wait the end of each process is reported at most once, and a reported status is the one the process exited with. |
| `Supervisor.TryWaitTellsTheTruth` | realm/app-manager/src/launcher/handler.rs:221-229 | In every run, from the step in which the worker takes a try_wait: the call, once returned, has reported the exit status if the process had exited by that step, and has reported that it still runs exactly if it was running at that step, whatever happens in between. |
| `Supervisor.StatusIsFinal` | realm/app-manager/src/launcher/handler.rs:187-257 | A process gets its status from its own exit or from the clean-up that kills it, and no step changes it afterwards. |
| `Supervisor.CallsConcernTheCurrentProcess` | realm/app-manager/src/launcher/handler.rs:362-393 | In every run a reported end is that of the process started last and not yet reported; an idle caller's call is refused as not running exactly if there is no such process. |
| `Supervisor.SupersededWorkerEnds` | realm/app-manager/src/launcher/handler.rs:238-257 | After a start over a running process the superseded worker needs nobody else: its own step is always enabled and at most three of them end it. |
| `Supervisor.AtMostOneLiveProcess` | realm/app-manager/src/launcher/handler.rs:349-360 | Once the superseded workers have finished, at most the process started last is live. |
| `Registry.NextKeeps` | warden/warden_daemon/src/managers/warden_manager.rs:26-123 | Every atomic step of every client keeps: strong counts are exact, locks have the right owners, and a realm being destroyed has no handle outside the registry. |
| `Registry.DestroyNeverPanics` | warden/warden_daemon/src/managers/warden_manager.rs:26-82 | With any number of clients in any interleaving, taking the last handle apart in destroy_realm never panics, only halted realms leave the registry, and strong counts equal the handles that exist. |
| `Registry.HandlesStayRegistered` | warden/warden_daemon/src/client_handler/client_command_handler.rs:261-283 | No client holds a handle to a realm that is not, or no longer, registered. |
| `Registry.ErrandsMean` | warden/warden_daemon/src/managers/warden_manager.rs:26-123 | Under the warden lock a handle or view is got exactly of a registered realm, a creation adds exactly its realm, halted and with a handle of its own, and no other entry changes; a destruction goes on exactly if no client holds a handle. |
| `Registry.RemovalFollowsIff` | warden/warden_daemon/src/managers/warden_manager.rs:34-46 | Having looked at the realm, the destruction can go on to remove it exactly if its data could be read and it is halted. |
| `Registry.TakenFromActiveRealm` | warden/warden_daemon/src/client_handler/client_command_handler.rs:272-283 | A client comes to have an application only by its own step, under the realm's lock, from a realm that is not halted. |
| `Registry.OrphanedIff` | warden/warden_daemon/src/client_handler/client_command_handler.rs:272-283 | A client has an application of an unregistered realm after a step if and only if that step removed the realm while the client had it, or it was so before and the step is not the client dropping it. |
| `Registry.OrphanAccount` | warden/warden_daemon/src/client_handler/client_command_handler.rs:272-283 | The same over whole runs: exactly if a removal found the client with the application and it has not been dropped since. |
| `Registry.ApplicationHandleOutlivesRealm` | warden/warden_daemon/src/client_handler/client_command_handler.rs:272-283 | It happens: a run in which one client starts a realm, another takes an application of it, and the first stops and destroys the realm. |
| `LockOrder.DocumentedOrder` | warden/warden_daemon/src/client_handler/client_command_handler.rs:94-283 | A command takes its locks in the order warden, realm, application, client, connector if and only if it is not a start or reboot of a realm that has applications. |
| `LockOrder.CommandLocks` | warden/warden_daemon/src/client_handler/client_command_handler.rs:94-283 | Every command's lock program takes exactly the locks of an independent table of commands and locks: none missing, none more. |
| `LockOrder.ProgramOrdered` | warden/warden_daemon/src/managers/realm_manager.rs:114-318 | Which commands fit an order in which chosen realms have client and application locks exchanged: exact for every command. |
| `LockOrder.NoCircularWait` | warden/warden_daemon/src/managers/application_manager.rs:41-58 | In a state in which whatever is wanted lies above everything held, no set of commands waits in a circle. |
| `LockOrder.SomeoneCanMoveAbove` | warden/warden_daemon/src/managers/application_manager.rs:41-58 | In such a state with work left, some command has an enabled step that is not giving up. |
| `Blocking.FacingCommands` | warden/warden_daemon/src/managers/realm_manager.rs:182-192 | Two commands that hold the client lock and an application lock of one realm and want the other's are a start or reboot of that realm and a start or stop of that application. |
| `Blocking.FacingExposes` | warden/warden_daemon/src/managers/realm_manager.rs:167-297 | They can stand so only if the commands and the realm's initial state allow it: state tests under the realm lock are part of every command's program. |
| `Blocking.NoBlock` | warden/warden_daemon/src/client_handler/client_command_handler.rs:94-259 | If the commands are not blockable in the realms' initial states, no run of any number of them reaches a circular wait, and work left can always go on. |
| `Blocking.BlockableBlocks` | warden/warden_daemon/src/managers/realm_manager.rs:219-237 | If they are, a run into a circular wait is constructed, with every state test passed. |
| `Blocking.CanBlockIff` | warden/warden_daemon/src/client_handler/client_command_handler.rs:94-283 | For every list of commands and every initial state of the realms a circular wait is reachable if and only if an application command meets a reboot of its active realm, or a stop and a start of it; a halted realm must be started first. |
| `Blocking.NoClashNoBlock` | warden/warden_daemon/src/client_handler/client_command_handler.rs:94-283 | Commands of which none starts or reboots a realm while another starts or stops one of its applications never block, whatever the states. |
| `Blocking.StartsAloneNeverBlock` | warden/warden_daemon/src/managers/realm_manager.rs:167-195 | Nor do commands among which there is neither a reboot nor a stop, although a start takes the locks in the other order. |
| `RealmLifecycle.RunningIsSynced` | warden/warden_daemon/src/managers/realm_manager.rs:45-85 | Over every run in which configuration saves succeed, Running implies that the data the realm acknowledged last is the current data of every application, each once. |
| `RealmLifecycle.DesyncIff` | warden/warden_daemon/src/managers/realm_manager.rs:257-282 | A command breaks that agreement if and only if it fails to save, on a running realm, a configuration whose name, version or registry differs. |
| `RealmLifecycle.AlwaysSyncedIff` | warden/warden_daemon/src/managers/realm_manager.rs:257-282 | Over a whole run: Running always means agreement if and only if no command of the run breaks it in that way. |
| `RealmLifecycle.DesyncHappens` | warden/warden_daemon/src/managers/realm_manager.rs:257-282 | It happens: a run to a running realm whose acknowledged data is not current. |
| `RealmLifecycle.CommandKeepsSound` | warden/warden_daemon/src/managers/realm_manager.rs:114-297 | Every command with a succeeding save keeps both: the VM of an active realm and the agreement of a running one. |
| `RealmLifecycle.FailedSaveSynced` | warden/warden_daemon/src/managers/application_manager.rs:79-86 | A failed save has changed the configuration in memory: on a running realm the agreement survives it exactly if the fields told to the realm are the same. |
| `RealmLifecycle.GatheredDataIsSynced` | warden/warden_daemon/src/managers/realm_manager.rs:45-57 | The data gathered in the order of the map covers every application exactly once with its current data. |
| `RealmLifecycle.ApplyKeepsVmOk` | warden/warden_daemon/src/managers/realm_manager.rs:167-217 | Every command, on every success and failure path, keeps: outside Halted there is a VM handle, launched with exactly the disks of the current applications. |
| `RealmLifecycle.ActiveRealmHasItsVm` | warden/warden_daemon/src/virtualization/vm_runner.rs:40-93 | The same in every state of every run. |
| `RealmLifecycle.HandleLifetime` | warden/warden_daemon/src/virtualization/vm_runner.rs:65-93 | A VM handle that a realm has before a command is never replaced; it is given up exactly by a stop of an active realm or a destruction of a halted one whose kill and wait both succeeded. |
| `RealmLifecycle.HandleBirth` | warden/warden_daemon/src/virtualization/vm_runner.rs:65-93 | A realm without a handle has one after a command exactly if the command launched a VM, with the disks of all applications, and did not itself shut it down again. |
| `RealmLifecycle.PrepareReplyOkIff` | warden/warden_daemon/src/managers/realm_manager.rs:59-75 | Whether preparing the disks succeeds does not depend on the order in which the jobs end: exactly if every job succeeded. |
| `RealmLifecycle.StrandedIff` | warden/warden_daemon/src/managers/realm_manager.rs:77-109 | A command leaves a halted realm with a VM handle if and only if a start failed after launching with the VM exited or its status or shutdown failing, or a token fetch of a halted realm failed to stop or shut down, or there was one already and the command is not its destruction. |
| `RealmLifecycle.StrandedAccount` | warden/warden_daemon/src/managers/realm_manager.rs:86-165 | The same over whole runs: exactly if one of the causes occurred and the realm has not been destroyed since. |
| `RealmLifecycle.StrandedIsFinal` | warden/warden_daemon/src/managers/warden_manager.rs:72-82 | Such a realm never starts or fetches a token again; only its destruction ends it, which ends the VM exactly if kill and wait succeed and otherwise leaves it without an owner. |
| `RealmLifecycle.StrandingHappens` | warden/warden_daemon/src/managers/realm_manager.rs:86-109 | It happens: a run to such a state. |
| `RealmLifecycle.ProvisioningIff` | warden/warden_daemon/src/managers/realm_manager.rs:182-195 | A realm is in Provisioning after a command if and only if it was before, or the command is a start that could not build the provisioning data. |
| `RealmLifecycle.ProvisioningAccount` | warden/warden_daemon/src/managers/realm_manager.rs:182-195 | The same over whole runs. |
| `RealmLifecycle.ProvisioningIsFinal` | warden/warden_daemon/src/managers/warden_manager.rs:40-46 | A realm in Provisioning refuses every command, its destruction included, and is changed by none. |
| `RealmLifecycle.ActiveIsNotDestroyed` | warden/warden_daemon/src/managers/warden_manager.rs:40-46 | So does an active realm refuse its destruction. |
| `RealmLifecycle.ReplyMeans` | warden/warden_daemon/src/managers/realm_manager.rs:77-282 | For every command and every outcome of the outside calls, the reply is Ok if and only if the command did what it is for: for a start, launched, gathered and acknowledged from Halted; for a stop, told and reaped; for a reboot, gathered and acknowledged; for a fetch, the token came and a halted realm's VM was reaped; for an application, created or saved. |
| `RealmLifecycle.ReplyShowsInState` | warden/warden_daemon/src/managers/realm_manager.rs:77-237 | A start is Ok exactly if the realm was Halted and is Running, a stop exactly if it was up and is Halted, a reboot only with the acknowledged data being what was gathered; a failed reboot changes nothing. |
| `RealmLifecycle.StateAfter` | warden/warden_daemon/src/managers/realm_manager.rs:77-282 | For every command exactly when the realm is Running, NeedReboot or in Provisioning afterwards. |
| `RealmLifecycle.RecordAfter` | warden/warden_daemon/src/managers/realm_manager.rs:182-237 | For every command which data counts as acknowledged afterwards, and whether the realm is still registered. |
| `RealmLifecycle.ErrorsNameTheirCause` | warden/warden_daemon/src/managers/realm_manager.rs:59-282 | Every error reply names a cause that is present: the state, the missing application, or the outside call that failed. |
| `RealmLifecycle.PrepareReplyErrors` | warden/warden_daemon/src/managers/realm_manager.rs:59-75 | The first disk job to end badly decides the error: its own failure if it ran, that it was cut off otherwise. |
| `RealmLifecycle.AppsAdded` | warden/warden_daemon/src/managers/realm_manager.rs:239-255 | The set of applications changes only by a successful creation, by exactly the new one; none is ever removed. |
| `RealmLifecycle.AppsTouched` | warden/warden_daemon/src/managers/realm_manager.rs:59-282 | Every application that a command does not create keeps its configuration and saved file unless the command updates that one, and its disk unless the command is a start or a fetch of a halted realm. |
| `RealmLifecycle.AppCreated` | warden/warden_daemon/src/managers/realm_manager.rs:239-255 | A created application has the given configuration, saved, and a disk that agrees with it. |
| `RealmLifecycle.PreparedDisksAgree` | warden/warden_daemon/src/managers/realm_manager.rs:59-75 | After a start or a halted fetch that succeeded every application's disk agrees with its configured sizes. |
| `RealmLifecycle.HangingHappens` | warden/warden_daemon/src/managers/realm_manager.rs:182-192 | It happens: a run to a realm in Provisioning. |
| `RealmSession.AcknowledgementIsGenuine` | warden/warden_daemon/src/client_handler/realm_client_handler.rs:133-143 | A realm enters Running, or stays there by a reboot, only on a new connection whose single request is the provisioning and whose single reply answers it with success, so no stale reply passes for the acknowledgement. |
| `RealmSession.SeveredIff` | warden/warden_daemon/src/managers/realm_manager.rs:197-217 | A realm is up without a connection after a command if and only if it was before, or the command is a stop that shut the realm down but could not end its VM. |
| `RealmSession.SeveredAccount` | warden/warden_daemon/src/managers/realm_manager.rs:197-217 | The same over whole runs: exactly if such a stop occurred. |
| `RealmSession.SeveredIsFinal` | warden/warden_daemon/src/client_handler/realm_client_handler.rs:65-73 | A severed realm keeps its VM and stays severed; no stop, reboot, start, token fetch, application creation or destruction succeeds on it again. |
| `RealmSession.SeveringHappens` | warden/warden_daemon/src/managers/realm_manager.rs:197-217 | It happens: a run to a severed realm. |
| `RealmSession.FirstWordDecides` | realm/app-manager/src/manager.rs:361-387 | What becomes of a provisioning is decided by the first thing the realm does about it: a reply, or its end. |
| `RealmSession.UntoldIff` | warden/warden_daemon/src/managers/realm_manager.rs:219-237 | The realm at the other end of an active realm's connection has answered no provisioning with success after a command if and only if the command is a reboot that reached it without such an answer, or it was so before and the command brought neither a late answer nor another reboot or shutdown. |
| `RealmSession.UntoldAccount` | warden/warden_daemon/src/client_handler/realm_client_handler.rs:210-217 | The same over whole runs; the state, Running or NeedReboot, does not show it. |
| `RealmSession.UntoldHappens` | warden/warden_daemon/src/client_handler/realm_client_handler.rs:210-217 | It happens: a run to a Running realm whose instance refused its applications. |
| `RealmSession.RebootReports` | warden/warden_daemon/src/client_handler/realm_client_handler.rs:210-217 | A reboot that reached the realm reports success exactly if the acknowledgement came and was read in time. |
| `RealmSession.StartReports` | warden/warden_daemon/src/managers/realm_manager.rs:167-195 | A start succeeds exactly if the VM was launched, the data gathered, the realm connected, and its first word was a success that was read in time. |
| `RealmSession.StopReports` | warden/warden_daemon/src/managers/realm_manager.rs:197-217 | A stop succeeds exactly if the shutdown could be sent, the realm is down, its connection reported the reset, and the VM was reaped. |
| `RealmSession.FetchReports` | warden/warden_daemon/src/managers/realm_manager.rs:114-165 | With no reply overdue, a token fetch succeeds exactly if the realm answered this request with the token and it was read in time; of a halted realm also only if it was booted, connected, went down on the shutdown and was reaped. |
| `RealmSession.LateAcknowledgementHappens` | warden/warden_daemon/src/client_handler/realm_client_handler.rs:180-186 | So a reboot can report failure although the realm was told: a concrete run. |
| `RealmSession.SentAwayIff` | warden/warden_daemon/src/client_handler/realm_client_handler.rs:206-217 | An active realm's connection leads to an instance that was told to reboot or shut down after a command if and only if the command is a reboot without reconnection or a stop whose shutdown did not complete, or it was so before and no reboot or shutdown completed. |
| `RealmSession.SentAwayAccount` | warden/warden_daemon/src/client_handler/realm_client_handler.rs:206-217 | The same over whole runs. |
| `RealmSession.SentAwayHappens` | warden/warden_daemon/src/client_handler/realm_client_handler.rs:210-217 | It happens: a run to a Running realm whose instance was rebooted away. |
| `RealmSession.GoneIff` | warden/warden_daemon/src/socket/vsocket_server.rs:111-126 | An active realm's connection leads to an instance that has ended after a step if and only if that instance ended during it, by itself or on request, or it was so before and neither a reboot reconnected nor a shutdown completed. |
| `RealmSession.GoneAccount` | warden/warden_daemon/src/managers/realm_manager.rs:86-109 | The same over whole runs; nobody asks for the VM's status, so the state does not show it. |
| `RealmSession.GoneByItself` | warden/warden_daemon/src/virtualization/vm_runner.rs:51-60 | An instance that ended without having been sent away ended by itself. |
| `RealmSession.GoneHappens` | warden/warden_daemon/src/virtualization/vm_runner.rs:51-60 | It happens: a VM exits, and the realm is Running, connected and told, with a dead connection. |
| `RealmSession.StopOfGone` | warden/warden_daemon/src/client_handler/realm_client_handler.rs:94-103 | A stop halts such a realm if and only if its connection reports a reset and the VM can be reaped; any other error of sending or reading leaves it active. |
| `RealmSession.ActiveMeansProvisioned` | warden/warden_daemon/src/managers/realm_manager.rs:167-237 | In every other active state of every run with succeeding saves the connection leads to an instance that is up, was not sent away and has acknowledged its provisioning; in Running what it acknowledged, in time or late, is the current data of every application. |
| `RealmSession.BusyStays` | realm/app-manager/src/manager.rs:361-387 | While the realm does nothing, no stop, reboot, token fetch, start, destruction or application call succeeds, and the realm stays active. |
| `RealmSession.SilentRealmStaysActive` | warden/warden_daemon/src/client_handler/realm_client_handler.rs:193-199 | The same over any number of commands: a realm whose loop waits for a process that ignores its signal cannot be halted, and the kill that would help is a later request on the same connection. |
| `RealmSession.LinkKeeps` | warden/warden_daemon/src/client_handler/realm_client_handler.rs:133-218 | Every command's calls keep the account of the connection, and that an active realm's connection began with a provisioning, its only one. |
| `RealmSession.SessionSafety` | warden/warden_daemon/src/managers/realm_manager.rs:114-318 | Commands composed with the protocol of their connection, with application calls whenever its lock is free and a realm that may end at any time: in every run with succeeding saves an active realm has its VM with exactly its disks, Running means the acknowledged data is current, the connection's account holds, and the provisioning that opened a Running realm's connection carried the data that is current now. |
| `RealmManagement.RealmManager.Handle` | warden/warden_daemon/src/client_handler/client_command_handler.rs:94-283 | Every command on the object, its destruction included, has exactly the effect and reply of the lifecycle, and keeps it sound: an active realm has its VM with its disks, a running one agrees with what it acknowledged. |
| `RealmManagement.RealmManager.PrepareApplications` | warden/warden_daemon/src/managers/realm_manager.rs:59-75 | Taking the disk jobs in the order in which they end gives every application its own result and reports the first that ended badly. |
| `RealmManagement.RealmManager.Destroy` | warden/warden_daemon/src/managers/realm_manager.rs:320-327 | Shuts the VM down and says whether it was there and could be reaped. |
| `RealmManagement.RealmManager.CreateProvisioningConfig` | warden/warden_daemon/src/managers/realm_manager.rs:45-57 | Returns the data of all applications in map order, or nothing if one cannot be read. |
| `RealmManagement.RealmManager.HandleStartResponse` | warden/warden_daemon/src/managers/realm_manager.rs:77-109 | Ok exactly if the realm acknowledged; the realm is Running then and Halted otherwise, with the VM shut down only if it is still up. |
| `RealmManagement.RealmManager.PrepareAndLaunch` | warden/warden_daemon/src/managers/realm_manager.rs:167-181 | Disks first, then the VM; a failure of the disks launches nothing. |
| `RealmManagement.RealmManager.Start` | warden/warden_daemon/src/managers/realm_manager.rs:167-195 | The whole start on the object does what the lifecycle says, on every path; Ok exactly if it was Halted before and is Running after. |
| `RealmManagement.RealmManager.FetchAttestationToken` | warden/warden_daemon/src/managers/realm_manager.rs:114-165 | A halted realm is booted and shut down again around the fetch, a running one is asked, one in Provisioning refuses. |
| `RealmManagement.RealmManager.Stop` | warden/warden_daemon/src/managers/realm_manager.rs:197-217 | Ok exactly if it was up before and is Halted after, which needs the realm stopped and the VM reaped; otherwise nothing changes. |
| `RealmManagement.RealmManager.Reboot` | warden/warden_daemon/src/managers/realm_manager.rs:219-237 | Ok means it was up, is Running, and what it acknowledged is the data gathered now; a failure changes nothing. |
| `RealmManagement.RealmManager.CreateApplication` | warden/warden_daemon/src/managers/realm_manager.rs:239-255 | Only in Halted; Ok leaves every other application object in the map as it was and adds the new one under its id, with the given configuration and an agreeing disk; an error leaves the map as it was. |
| `RealmManagement.RealmManager.UpdateApplication` | warden/warden_daemon/src/managers/realm_manager.rs:257-282 | Ok exactly if the realm is not in Provisioning, has the application and the save succeeded; turns Running into NeedReboot exactly then. A failed save has changed the memory and keeps the state. |
| `RealmManagement.RealmManager.GetApplication` | warden/warden_daemon/src/managers/realm_manager.rs:284-297 | An application is handed out if and only if the realm is up and has it; otherwise which of the two errors. |
| `AppDisk.FirstFitSkips` | warden/warden_daemon/src/storage/app_disk_manager.rs:275-289 | First fit finds the first free start behind a run of occupied ones. |
| `AppDisk.FirstFit` | warden/warden_daemon/src/storage/app_disk_manager.rs:275-289 | What is found is free, fits before the backup table, and is the lowest such start; nothing found means that nothing fits. |
| `AppDisk.AdmissibleSizes` | warden/warden_daemon/src/storage/app_disk_manager.rs:176-192 | A size is accepted exactly from one to 102400 megabytes, converted to bytes exactly, and an empty one is reported as empty. |
| `AppDisk.LayoutFits` | warden/warden_daemon/src/storage/app_disk_manager.rs:176-313 | For every admissible pair of sizes both partitions are placed, disjoint, between primary and backup table, with exactly the requested byte lengths; the total is a whole number of blocks and the 32-bit cast for the protective MBR loses nothing. |
| `AppDisk.CreateAgrees` | warden/warden_daemon/src/storage/app_disk_manager.rs:165-174 | A created disk agrees with the recorded sizes, carries the new GUIDs and passes its own check. |
| `AppDisk.UpdateAgreesIff` | warden/warden_daemon/src/storage/app_disk_manager.rs:146-174 | An update of an agreeing disk keeps the agreement if and only if it is not a failing recreation that leaves something else behind; it succeeds if and only if the disk is readable, the sizes admissible and a needed recreation works. |
| `AppDisk.ApplicationDiskManager.CreateApplicationDisk` | warden/warden_daemon/src/storage/app_disk_manager.rs:165-174 | Success means that the disk agrees with the recorded sizes; of admissible sizes a creation that went through always does. |
| `AppDisk.ApplicationDiskManager.CreateDiskWithPartitions` | warden/warden_daemon/src/storage/app_disk_manager.rs:64-73 | Success means agreement; a readable disk that agreed is left alone. |
| `AppDisk.ApplicationDiskManager.UpdatePartitionsIfSizesDiffer` | warden/warden_daemon/src/storage/app_disk_manager.rs:146-163 | Success means that the disk has exactly the requested sizes; unless an admissible size differs from that of an agreeing disk, nothing is changed. |
| `AppDisk.ApplicationDiskManager.EnsurePartitionsCorrectness` | warden/warden_daemon/src/storage/app_disk_manager.rs:125-144 | Accepts exactly if the file is readable and holds both partitions with the recorded lengths. |
| `Application.CreateAppHealthy` | warden/warden_daemon/src/fabric/application_fabric.rs:32-65 | A created application has agreeing recorded sizes, disk and saved configuration. |
| `Application.CreateAppIff` | warden/warden_daemon/src/fabric/application_fabric.rs:32-65 | An application is created if and only if its directory, configuration file and disk could be made and read back and both sizes are admissible. |
| `Application.DataTellsConfigAndGuids` | warden/warden_daemon/src/managers/application_manager.rs:60-70 | What a realm is told of an application with a readable agreeing disk is its configuration and the GUID of each partition, each in its own field. |
| `Application.AfterKeeps` | warden/warden_daemon/src/managers/application_manager.rs:60-86 | A start, update or reload with succeeding I/O keeps the agreement, and recreates the disk with new GUIDs exactly when admissible configured sizes differ from the recorded ones. |
| `Application.HistoryNoneIff` | warden/warden_daemon/src/fabric/application_fabric.rs:67-94 | With succeeding I/O an application cannot be loaded if and only if the daemon reloads while the last saved configuration has an inadmissible size. |
| `Application.SizesAlwaysAgree` | warden/warden_daemon/src/fabric/application_fabric.rs:67-94 | Over every sequence of starts, updates and reloads with succeeding I/O the recorded sizes are those on the disk, as long as the application can be loaded. |
| `Application.UpdateTakesAnySizes` | warden/warden_daemon/src/managers/application_manager.rs:79-86 | update_config accepts any sizes; the next start and the next reload succeed exactly if they were admissible. |
| `Application.InadmissibleSizeHappens` | warden/warden_daemon/src/managers/application_manager.rs:79-86 | It happens, from every healthy application: a zero size is saved and the application cannot be loaded. |
| `Application.FailedRecreationHappens` | warden/warden_daemon/src/storage/app_disk_manager.rs:146-163 | It happens, from every healthy application: a recreation fails after the sizes were recorded, and recorded sizes and disk disagree. |
| `Application.DisagreementIsStuck` | warden/warden_daemon/src/storage/app_disk_manager.rs:146-163 | From then on no start succeeds and the disk does not change, over every sequence of updates and starts and however well the I/O goes. |
| `Application.ReloadHealsIff` | warden/warden_daemon/src/fabric/application_fabric.rs:67-94 | Only a reload heals it, exactly if the saved sizes are admissible. |
| `Application.DiskChangesIff` | warden/warden_daemon/src/storage/app_disk_manager.rs:64-73 | With unchanged sizes and whatever the I/O does, an event leaves the disk alone exactly unless it is a reload that cannot read it; that reload makes the disk anew, with new GUIDs, or fails. |
| `Application.UnreadableReloadHappens` | warden/warden_daemon/src/storage/app_disk_manager.rs:64-73 | It happens, to every healthy application: one unreadable reload gives it a new disk with new GUIDs. |
| `Application.GuidsChangeOnlyWithSizes` | warden/warden_daemon/src/managers/application_manager.rs:72-86 | As long as no update changes a size, saves succeed and every reload can read the disk, no sequence of starts, updates and reloads changes the disk or the GUIDs given to the realm. |
| `Application.ApplicationManager.ConfigureDisk` | warden/warden_daemon/src/managers/application_manager.rs:72-77 | Brings the disk to the configured sizes and touches nothing else. |
| `Application.ApplicationManager.ConfigureDiskTask` | warden/warden_daemon/src/managers/realm_manager.rs:59-75 | The same as a spawned job, which an aborting sibling may cut short after the sizes were recorded. |
| `Application.ApplicationManager.GetData` | warden/warden_daemon/src/managers/application_manager.rs:60-70 | The configuration and both partition GUIDs, or nothing if one cannot be read. |
| `RealmLink.RequestAccount` | warden/warden_daemon/src/client_handler/realm_client_handler.rs:75-218 | After any calls, requests sent minus replies read on the connection equals failed reads plus reboots without reconnection; replies are read in request order; and with none of these every reply taken answered the request just sent. |
| `RealmLink.AskAnswers` | warden/warden_daemon/src/client_handler/realm_client_handler.rs:75-92 | A reply is for the request sent as many requests earlier as the lag says, and is one the realm can give to that request. |
| `RealmLink.AskConfirms` | warden/warden_daemon/src/client_handler/realm_client_handler.rs:75-92 | With no reply overdue, a reply is what the realm gave to the very request just sent. |
| `RealmLink.CallConfirms` | warden/warden_daemon/src/client_handler/realm_client_handler.rs:123-130 | So a confirmed call was confirmed by the realm for that call, and the connection stays in step. |
| `RealmLink.AskReportsIff` | warden/warden_daemon/src/client_handler/realm_client_handler.rs:75-92 | With no reply overdue, a call reports a response if and only if the realm gave it to this request and it was delivered. |
| `RealmLink.CallSucceedsIff` | warden/warden_daemon/src/client_handler/realm_client_handler.rs:123-130 | The same as success of any single-request call: start, kill, provisioning, token fetch, interface read; without a connection it fails and sends nothing. |
| `RealmLink.RefusalReportedIff` | warden/warden_daemon/src/client_handler/realm_client_handler.rs:112-121 | With no reply overdue, a refusal is reported exactly if the realm refused this request and the refusal was delivered, and no reply is of the wrong kind. |
| `RealmLink.StopSucceedsIff` | warden/warden_daemon/src/client_handler/realm_client_handler.rs:193-199 | With no reply overdue, a stop succeeds if and only if it was answered with success and that was delivered, or it was refused and the kill that follows was answered with success and that was delivered. |
| `RealmLink.ReadAnswers` | warden/warden_daemon/src/socket/vsocket_server.rs:111-126 | A read keeps the account: a delivered reply is the oldest, a timeout or reset adds one to the lag. |
| `RealmLink.TurnKeeps` | realm/app-manager/src/manager.rs:361-387 | The realm's loop writes one reply for each request, in order, of a kind that fits it. |
| `RealmLink.RunKeeps` | warden/warden_daemon/src/client_handler/realm_client_handler.rs:133-218 | The account is kept by every sequence of calls, including the kill fallback and reconnection. |
| `RealmLink.DownIff` | warden/warden_daemon/src/socket/vsocket_server.rs:111-126 | A realm is down after some of its acts exactly if one of them was its end: by itself, or by handling a reboot or shutdown that was next. |
| `RealmLink.StaleSuccess` | warden/warden_daemon/src/client_handler/realm_client_handler.rs:193-199 | With a lag an old success is taken for a new one: a concrete run in which a stop succeeds although the realm refused it. |
| `RealmLink.RealmClientHandler.SendAndRead` | warden/warden_daemon/src/client_handler/realm_client_handler.rs:75-92 | Keeps the account; with no reply overdue the reply is the realm's answer to this request. |
| `RealmLink.RealmClientHandler.TryConnect` | warden/warden_daemon/src/client_handler/realm_client_handler.rs:152-166 | A new connection has no reply overdue, whatever the old one had missed; a failure keeps the old one. |
| `RealmLink.RealmClientHandler.ProvisionApplications` | warden/warden_daemon/src/client_handler/realm_client_handler.rs:180-186 | With no reply overdue, success if and only if the realm answered this provisioning with success and the answer was delivered. |
| `RealmLink.RealmClientHandler.StartApplication` | warden/warden_daemon/src/client_handler/realm_client_handler.rs:188-191 | With no reply overdue, success if and only if the realm answered this start with success and the answer was delivered. |
| `RealmLink.RealmClientHandler.KillApplication` | warden/warden_daemon/src/client_handler/realm_client_handler.rs:201-204 | The same for a kill. |
| `RealmLink.RealmClientHandler.FetchAttestationToken` | warden/warden_daemon/src/client_handler/realm_client_handler.rs:168-178 | The same for the token. |
| `RealmLink.RealmClientHandler.ReadRealmIfs` | warden/warden_daemon/src/client_handler/realm_client_handler.rs:219-228 | The same for the interface addresses. |
| `RealmLink.RealmClientHandler.StopApplication` | warden/warden_daemon/src/client_handler/realm_client_handler.rs:193-199 | With no reply overdue, success if and only if the realm answered this stop with success, or refused it and answered the following kill with success, each answer delivered. |
| `RealmLink.RealmClientHandler.ShutdownRealm` | warden/warden_daemon/src/client_handler/realm_client_handler.rs:94-103 | Success means that the realm is down and the connection given up; a failure keeps it. |
| `RealmLink.RealmClientHandler.RebootRealm` | warden/warden_daemon/src/client_handler/realm_client_handler.rs:210-217 | The reboot is sent on the old connection unless that cannot be written to; success means a new connection with nothing overdue whose realm has acknowledged its provisioning. |
| `Rendezvous.RendezvousSafety` | warden/warden_daemon/src/socket/vsocket_server.rs:75-87 | In every run a connected call has a stream of the cid it asked for, was the newest registration for it when the stream was accepted, and shares it with no other call. |
| `Rendezvous.RunKeeps` | warden/warden_daemon/src/socket/vsocket_server.rs:75-139 | The table of waiting calls and the streams handed out stay consistent over registrations, accepts, timeouts and cancellations. |
| `Rendezvous.RegisterSupersedes` | warden/warden_daemon/src/socket/vsocket_server.rs:131-139 | A second registration for a cid loses the call that was waiting. |
| `Rendezvous.LostNeverConnects` | warden/warden_daemon/src/client_handler/realm_client_handler.rs:152-167 | A superseded, timed-out or cancelled call never gets a stream afterwards. |
| `Rendezvous.DeliveredConnects` | warden/warden_daemon/src/client_handler/realm_client_handler.rs:152-167 | A call to which a stream was delivered connects with exactly that stream when it looks, and keeps it until it does, unless it gives up first. |
| `Rendezvous.SenderGoneMeansSuperseded` | warden/warden_daemon/src/socket/vsocket_server.rs:131-139 | In every run a call that finds its sender gone was superseded by a later registration for its cid. |
| `Rendezvous.ListenerSurvivesIff` | warden/warden_daemon/src/socket/vsocket_server.rs:48-87 | The listener survives an incoming connection if and only if some call still waits for its cid. |
| `Rendezvous.ListenerEnds` | warden/warden_daemon/src/socket/vsocket_server.rs:48-87 | It happens: a connection nobody asked for, and one that comes after its call gave up, end the listener. |
| `Rendezvous.VSockServer.AcquireRealmSender` | warden/warden_daemon/src/socket/vsocket_server.rs:131-139 | The new call is the one the next connection of its cid goes to, and whoever waited for that cid has lost; the table stays consistent. |
| `Rendezvous.VSockServer.HandleAccept` | warden/warden_daemon/src/socket/vsocket_server.rs:75-87 | The stream goes to the newest call for its cid and to nobody else, if that call still waits; otherwise to nobody, and the listener ends. |
| `Netfilter.IpTables.Perform` | warden/warden_daemon/src/virtualization/nat_manager/filter_table_handler.rs:84-120 | Operations are performed in order up to the first refusal, and what was done stays. |
| `Netfilter.SetupInstalls` | warden/warden_daemon/src/virtualization/nat_manager/filter_table_handler.rs:84-224 | From a table without traces of a plan, creating, hooking and filling its chains succeeds and yields the table with exactly these chains and jumps added. |
| `Netfilter.SetupAgain` | warden/warden_daemon/src/virtualization/nat_manager/nat_table_handler.rs:72-116 | A set-up that takes existing chains as they are can be repeated on the installed table and changes nothing. |
| `Netfilter.CleanupStrips` | warden/warden_daemon/src/virtualization/nat_manager/filter_table_handler.rs:226-277 | On every table that holds the chains and each jump once, whatever else it holds, cleanup succeeds (each chain is empty and unreferenced when deleted) and leaves everything else in order. |
| `Netfilter.CleanupOkIff` | warden/warden_daemon/src/virtualization/nat_manager/filter_table_handler.rs:226-277 | For every table whatsoever: the kernel takes the whole cleanup if and only if the chains are there, each jump exactly once, and no other rule refers to the chains. |
| `Netfilter.ReplaceMovesToTheEnd` | warden/warden_daemon/src/virtualization/nat_manager/filter_table_handler.rs:84-120 | A rule appended with replacement is last and has as many copies as before, or one. |
| `Netfilter.InstalledStrips` | warden/warden_daemon/src/virtualization/nat_manager/nat_table_handler.rs:72-123 | What set-up installs meets that condition, and stripping it gives back the table of before. |
| `Netfilter.EditsMake` | warden/warden_daemon/src/virtualization/nat_manager/nat_table_handler.rs:118-123 | Any sequence of foreign additions and removals of rules and chains keeps the condition and commutes with stripping. |
| `Netfilter.RoundTrip` | warden/warden_daemon/src/virtualization/nat_manager/nat_table_handler.rs:72-123 | Set-up, foreign changes, cleanup: the result is the table those changes alone would have made. |
| `Netfilter.SetupRefused` | warden/warden_daemon/src/virtualization/nat_manager/filter_table_handler.rs:84-87 | A set-up that insists on new chains is refused at its first operation if its first chain exists, so that nothing is changed. |
| `NatRouting.ChainNames` | warden/warden_daemon/src/virtualization/nat_manager/filter_table_handler.rs:76-80 | For no interface name does a chain name collide with a built-in chain or with another postfix. |
| `NatRouting.FilterPlanOk` | warden/warden_daemon/src/virtualization/nat_manager/filter_table_handler.rs:84-224 | The filter manager's chains, jumps and rules form a plan in the above sense for every interface name and network. |
| `NatRouting.NatPlanOk` | warden/warden_daemon/src/virtualization/nat_manager/nat_table_handler.rs:72-116 | The same for the nat manager. |
| `NatRouting.ManglePlanOk` | warden/warden_daemon/src/virtualization/nat_manager/mangle_table_handler.rs:80-97 | The same for the mangle manager. |
| `NatRouting.Routing.PrepareRouting` | warden/warden_daemon/src/virtualization/nat_manager.rs:60-67 | nat, filter, mangle in this order; stops at the first refusal with later tables untouched and a finished nat table left behind. |
| `NatRouting.Routing.CleanupRouting` | warden/warden_daemon/src/virtualization/nat_manager.rs:44-51 | Cleanup of nat, filter, mangle in this order; stops at the first refusal with later tables untouched. |
| `NatRouting.RoutingRoundTrip` | warden/warden_daemon/src/virtualization/nat_manager.rs:44-67 | From tables without the daemon's traces, preparing succeeds, and cleaning up after any foreign changes leaves the three tables as those changes alone would have. |
| `NatRouting.RoutingRestored` | warden/warden_daemon/src/virtualization/nat_manager.rs:44-67 | Without foreign changes the three tables are restored exactly. |
| `NatRouting.PreparedOnlyOnce` | warden/warden_daemon/src/virtualization/nat_manager/filter_table_handler.rs:84-99 | After a preparation, whatever others have changed since, preparing again without cleaning up fails. |
| `NatRouting.RepeatedPreparation` | warden/warden_daemon/src/virtualization/nat_manager.rs:60-67 | Repeated directly, the preparation leaves the nat table as it is and is refused at the filter table's first operation, so no table changes; the mangle set-up could be repeated too. |
| `NatRouting.CleanedIff` | warden/warden_daemon/src/virtualization/nat_manager.rs:44-51 | Cleaning up the three tables succeeds if and only if each still has the daemon's chains, each of its jumps once, and no foreign jump into them. |
| `PacketFlow.ForwardMeans` | warden/warden_daemon/src/virtualization/nat_manager/filter_table_handler.rs:100-166 | For every packet and table: where the earlier rules leave a forwarded packet undecided, the installed chains decide it by bridge, subnet and connection state alone; where they decide, nothing changes. |
| `PacketFlow.BridgeAcceptNeverReached` | warden/warden_daemon/src/virtualization/nat_manager/filter_table_handler.rs:160-166 | Emptying the third forward chain changes the fate of no packet in the whole FORWARD chain, other rules included. |
| `PacketFlow.InputMeans` | warden/warden_daemon/src/virtualization/nat_manager/filter_table_handler.rs:167-195 | For packets to the host only TCP and UDP to ports 53 and 67 from the bridge are newly accepted. |
| `PacketFlow.OutputMeans` | warden/warden_daemon/src/virtualization/nat_manager/filter_table_handler.rs:196-224 | For packets of the host only TCP and UDP to ports 53 and 68 towards the bridge are newly accepted. |
| `PacketFlow.MasqueradeMeans` | warden/warden_daemon/src/virtualization/nat_manager/nat_table_handler.rs:80-116 | A packet is newly masqueraded if and only if its source is inside, its destination outside and neither of the two exempt ones; with a port range exactly for TCP and UDP. |
| `PacketFlow.MangleDecidesNothing` | warden/warden_daemon/src/virtualization/nat_manager/mangle_table_handler.rs:88-97 | The mangle rules change no verdict. |
| `PacketFlow.MangleFills` | warden/warden_daemon/src/virtualization/nat_manager/mangle_table_handler.rs:80-97 | A packet's checksum is filled exactly if it was before, or the earlier rules leave it undecided and it is UDP to port 68 towards the bridge. |
| `PacketFlow.OldRulesDecideAlike` | warden/warden_daemon/src/virtualization/nat_manager.rs:60-67 | Rules that were there before decide every packet as before. |
| `OciInstall.EveryResultAccepted` | realm/app-manager/src/launcher/oci.rs:324-456 | Over every sequence of installs, with any registry, file-system and partition behaviour, each pair returned is the record on disk and is the vendor key and hash of an image that this or an earlier install found signed, unpacked and moved into place. |
| `OciInstall.RecordAccepted` | realm/app-manager/src/launcher/oci.rs:205-208 | The record on disk always describes an image that some install of the sequence found signed and put into place, with the configuration parsed from that same image. |
| `OciInstall.InstallStep` | realm/app-manager/src/launcher/oci.rs:324-456 | An install keeps the record, loses it, or replaces it by one just accepted; success means the returned pair is the record. |
| `OciInstall.LaunchMatchesMeasurementIff` | realm/app-manager/src/app.rs:172-238 | After a successful install some accepted image has the vendor data and hash that were measured, and the launch read through the overlay is that image's if and only if the metadata is readable and the data partition brings no metadata file of its own, or one that launches alike. |
| `OciInstall.RegistryWins` | realm/app-manager/src/launcher/oci.rs:342-370 | With the registry in reach success means the registry's image, never an older one. |
| `OciInstall.RefusedLeavesTheRecord` | realm/app-manager/src/launcher/oci.rs:137-157 | An image that is not accepted leaves the metadata file as it was. |
| `OciInstall.RefusedIff` | realm/app-manager/src/launcher/oci.rs:137-157 | An image passes if and only if the authority signed the vendor key, the key can be imported, and it signed the configuration; the reason given names the missing link. |
| `OciInstall.AnnotationsMean` | realm/app-manager/src/launcher/oci.rs:98-128 | The annotations are taken exactly if all three are there and decode, each from its own name. |
| `OciInstall.InstallOkIff` | realm/app-manager/src/launcher/oci.rs:324-456 | An install succeeds if and only if client and version are valid and the registry is out of reach with a readable record, or its image is installed already, or it is signed, unpacked, moved and parsed and its metadata written. |
| `OciInstall.InstallErrors` | realm/app-manager/src/launcher/oci.rs:324-456 | Every error names a cause that is present. |
| `OciInstall.TornSaveLosesTheRecord` | realm/app-manager/src/launcher/oci.rs:205-208 | After a torn save nothing can be read, so that the next install needs the registry. |
| `OciInstall.LateFailureIsInstalled` | realm/app-manager/src/launcher/oci.rs:355-376 | A save that reports a failure after writing leaves a record that the next install returns without the registry. |
| `OciInstall.FormattedNeedsTheRegistry` | realm/app-manager/src/app.rs:157-179 | On a newly formatted partition an install succeeds only by taking the registry's image. |
| `OciInstall.LaunchRuns` | realm/app-manager/src/launcher/oci.rs:220-235 | A launch runs the entry point's words and behind them the command's, in the image's working directory, exactly if there is at least one word. |
| `OciInstall.InstalledStaysUsable` | realm/app-manager/src/launcher/oci.rs:355-376 | After success, an install offline or with an unchanged registry gives the same result and record, whatever else fails. |
| `OciInstall.OciLauncher.Install` | realm/app-manager/src/launcher/oci.rs:324-456 | On the object, over its whole history: success means that the returned pair is the record on disk and that this or an earlier install found its image signed and unpacked and moved it into place. |
| `Provisioning.LogIndependentIff` | realm/app-manager/src/manager.rs:134-176 | The sequence of REM extensions is the same function of the request order for every completion order if and only if requests with the same id install the same measurements; distinct ids are a special case. |
| `Provisioning.OrderShows` | realm/app-manager/src/manager.rs:162-167 | Otherwise two completion orders with different logs are constructed. |
| `Provisioning.ProvisionAccount` | realm/app-manager/src/manager.rs:134-188 | For every completion order the applications are complete, none is missing when measured, the REM grows by a prefix of the expected log, and by all of it on success. |
| `Provisioning.ProvisionSucceedsIff` | realm/app-manager/src/manager.rs:134-188 | A request whose installations succeed is answered with success if and only if every application starts that is to start and, with a configured REM, each has measurements and the hardware takes every extension; a failing start is reported exactly if all the rest went well. |
| `Provisioning.RefusedUnchanged` | realm/app-manager/src/manager.rs:135-147 | With applications present, or no launcher to be had, the request is refused and changes nothing. |
| `Provisioning.LogJoins` | realm/app-manager/src/manager.rs:169-176 | Read in a row, the extensions are the measurements of all applications in the order of the request. |
| `Provisioning.MeasurementParts` | realm/app-manager/src/app.rs:181-185 | Measurements are the vendor key, its signature and the image hash, in this order. |
| `Provisioning.RepeatableIff` | realm/app-manager/src/manager.rs:135-167 | A request with a failing installation leaves the REM alone, and the next request is refused as already provisioned if and only if the first job to finish succeeded. |
| `Provisioning.RefusedRepetitionHappens` | realm/app-manager/src/manager.rs:135-167 | It happens: a repeated request that would succeed is refused because an earlier one failed half-way. |
| `Provisioning.ChunksJoin` | realm/app-manager/src/manager.rs:222-236 | The chunks extended for an application concatenate to exactly its measurements. |
| `Provisioning.ChunkSizes` | realm/app-manager/src/manager.rs:228-232 | Every chunk is non-empty and within the limit; only the last is short. |
| `Provisioning.LogTells` | realm/app-manager/src/manager.rs:169-176 | Different measurements of one application give different logs of every request that names it. |
| `Provisioning.Application.Record` | realm/app-manager/src/app.rs:181-185 | Appends the vendor data in order and then the image hash. |
| `Provisioning.Manager.ExtendRem` | realm/app-manager/src/manager.rs:222-236 | Extends chunk by chunk until refused; without measurements an error, without a configured REM nothing. |
| `Provisioning.Manager.Provision` | realm/app-manager/src/manager.rs:134-188 | The whole request on the object, on every path, with what a failure leaves behind. |
| `AddressPool.GoodPoolIff` | warden/warden_daemon/src/virtualization/dnsmasq_server_handler.rs:80-102 | The pool has exactly as many addresses as clients, all in the network, without its lowest, bridge and highest address, if and only if host part + 1 + clients is below the number of host addresses - 1. |
| `AddressPool.PermittedClientsFit` | warden/warden_daemon/src/cli.rs:28-31 | This holds for every network address with zero host bits and at least eight of them and every client count from 2 to 252, IPv4 and IPv6. |
| `AddressPool.NothingSaturates` | warden/warden_daemon/src/virtualization/nat_manager.rs:77-88 | Where it holds no saturating addition saturated. |
| `AddressPool.LongPrefixOverflows` | warden/warden_daemon/src/cli.rs:28-31 | It is not checked: a concrete permitted setting with a longer prefix for which the pool leaves the network. |
| `AddressPool.InsideIsRange` | warden/warden_daemon/src/virtualization/dnsmasq_server_handler.rs:80-88 | Membership by leading bits is the range from the lowest to the highest address. |

## Left out

- `Blocking` and `LockOrder` take the set of realms and the applications of each as fixed while the commands run; an early return other than a refused state is a step that drops all locks and leaves the state.
- `Registry` does not model what a command does inside a realm beyond whether it halts it.
- `RealmLifecycle` does not model a restart of the daemon at realm level; reloading is modelled for one application (`Application.SizesAlwaysAgree`).
- `RealmLifecycle` does not model the removal of a destroyed realm's directory and tap device, nor the addresses in realm data, which are straight copies.
- `RealmLink` models the kind of a reply and the request it was written for, not the bytes of a token or the list of interface addresses, which are passed on as they are.
- `RealmLink` models a failing send only once the realm has ended, and no errors of decoding a frame; a read that fails is a timeout, a reset or, like a timeout, any other error.
- `PacketFlow` and `NatRouting` cover IPv4: with an IPv6 network the nat rules name IPv4 destinations.
- `Netfilter` assumes the contracts of the iptables library (append after removing an existing copy, delete the first match) and a kernel that refuses only for a stated reason; a spuriously failing invocation is not modelled.
- `AppDisk.FirstFit` states the contract assumed of the partition library; the bytes of the partition table are not modelled.
- `OciInstall` makes no claim about the image directory between moving the image and saving the metadata, and does not model user, group and environment look-ups of the launch configuration.
- `Provisioning.Manager.Provision` does not model the order in which applications are started automatically, only whether one of the starts fails.
- `AppDisk.LayoutFits` is about freshly laid out disks; resizing in place does not exist in the source.
- Signals, waitpid and pipe errors inside the supervisor's worker; they end the worker.
- Tap devices, bridge creation and the DHCP server process: kernel and process I/O without an invariant of their own.
- Device mapper, keyring, mounting, key derivation, TLS with attestation, RSI calls: foreign code.
- JSON and YAML formats, command lines of the virtual machine monitors, the client library, the command-line client, daemon wiring and signal handling.
- Real-time durations.
