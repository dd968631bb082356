# A model of the VirtUSB kernel module

VirtUSB is a virtual USB host controller for Linux: user-space programs play
devices, and the kernel module routes URBs to them. This project models the
three linked state machines of `kernel/src` and proves what they keep.

**The transfer backend** appears twice. `Queues` gives each locked section of
`virtusb_backend.c` as a function on the locked state.
`Machines` builds a step relation from them: any number of threads, one
program counter each, one step per locked section, per unlocked reference
count change and per wake-up, so every interleaving of submit, cancel, fetch,
rollback, complete, release and stop is a run. `Ledger` states one
conservation law per kind of resource (the place of an accepted transfer, the
URB in flight, the linked URBs, the right to offer a transfer, its state, its
references, a device's references), `Conservation` and `Steps` show that every step keeps
all of them, and `Guarantees`, `Stopping`, `Releases`, `Wakeups` and `Delivery` read off
the theorems over all runs; `Reorderings` and `Rebinding` show that the discipline
`Delivery` asks for is exact and that a weaker one is not enough. `Sections` tells what each
locked section answers and does by what is on the lists, `Calls` where each step leads and that no
thread is ever stuck, `Endings` which end a transfer gets, and `Lifecycle` is a run of a URB from
submission to release. `Backends` and `Transfers` are the same code as
classes, each operation run to its end: lists spliced in place, transfers and URB buffers
written, drains that loop while completion handlers submit
again. Each method is proved against the locked section it performs, and a record of
what was sent under each transfer id, which no operation changes, ties the bytes a
backend is told and the buffer it completes to the URB that was submitted.

**The hub, its ports and the devices** are values in `Topology`: connection is
derived from peer, VBUS and signaling, while enable, speed and change bits are
stored. `Agreement` shows that every request keeps stored and derived state in
agreement. `Effects` turns the requests around: for every fact about the hub and its devices,
and for every answer, it says which requests change it, when, and to what, in the numbers of the
interface. `Histories`, `Requests`, `Suspension` and `Shutdown` prove the statements about
reachable states and whole sequences of requests. `Hubs` is the same in place, with ports linked by
reference and 32-bit registers, proved against `Topology`; `Bits` relates the
registers and the packed speed array to sets and tables; `Encodings` covers the
status bytes and the two encoders of a port's state.

**The object registry** is `Registry`: ids, publication and reference counts.

Where the words of a contract need it: a *reachable* machine or world is one
that some run leads to from boot; a *slot* is a place on the pending or active
list; a *share* is what one device has on a list, in order.

## Model

| member | source | states |
|---|---|---|
| Guarantees.ExactlyOnce | kernel/src/virtusb_backend.c:200-257 | Under every interleaving each accepted transfer is in exactly one place: pending, active, one thread's hand, or given back, and given back at most once |
| Guarantees.UrbInFlightOnce | kernel/src/virtusb_backend.c:207-210 | A URB is used by at most one queued request or thread, and is linked to its endpoint exactly while its request is queued |
| Guarantees.RefusedNeverGivenBack | kernel/src/virtusb_backend.c:214-218 | A transfer that the locked section of submit refused is not given back in any continuation |
| Guarantees.GivenUpNeverGivenBack | kernel/src/virtusb_backend.c:178-186 | A transfer that is given up before the locked section, for want of memory or for its size, is not given back in any continuation |
| Guarantees.TransferReferences | kernel/src/virtusb_transfer.c:14-23 | A transfer's count equals the requests, creators and fetches holding it; its release callback has run once if the count is zero and never otherwise |
| Guarantees.DeviceReferences | kernel/src/virtusb_backend.c:84-107 | A device's count equals its registry reference, its bindings, its live transfers and its callers; it is released once exactly when that reaches zero |
| Guarantees.ReachedTransferIsLive | kernel/src/virtusb_backend.c:17-29 | No queued request and no thread can reach a released transfer |
| Guarantees.ReachedDeviceIsLive | kernel/src/virtusb_transfer.c:81-85 | No registry entry, binding, live transfer or caller can reach a released device |
| Guarantees.ReleasedForGood | kernel/src/virtusb_object.c:7-53 | Once released, a transfer or device has no references in any continuation |
| Guarantees.QueuedCoupling | kernel/src/virtusb_backend.c:181-210 | Every queued transfer is QUEUED, has a unique nonzero id, the URB and device of its request and at most 4096 bytes; pending requests have no owner and active ones have one |
| Guarantees.LinkedIsFound | kernel/src/virtusb_backend.c:239-252 | A URB that passes the unlink check is on a list, so the not-found exit of cancel is never taken |
| Guarantees.HeldIsOpen | kernel/src/virtusb_backend.c:440-445 | A transfer whose request was detached is still QUEUED when it is settled, so completing or cancelling it cannot fail |
| Guarantees.StatesGoForward | kernel/src/virtusb_transfer.c:117-172 | Over every run a transfer's state only moves from NEW over QUEUED to an end, and COMPLETED and CANCELLED are never left |
| Stopping.StopDrains | kernel/src/virtusb_backend.c:535-562 | Once stopping is set, what is queued plus the number of requests taken off since is constant over every run, and bindings only shrink: the drain ends whatever handlers do |
| Stopping.StopIsFinal | kernel/src/virtusb_backend.c:520-583 | When stop has returned, bindings, pending and active are empty, and stay empty in every continuation |
| Stopping.StoppedGaveAll | kernel/src/virtusb_backend.c:520-583 | When stop has returned and no thread has a detached request in hand, every transfer ever accepted has been given back exactly once |
| Releases.ReleaseIsComplete | kernel/src/virtusb_backend.c:480-510 | Under every interleaving, if no binding names a device and no thread holds one of its requests for a release or is still between rounds of one, the device has no request on either list |
| Releases.NothingLeftActive | kernel/src/virtusb_backend.c:489-510 | An owner that has lost its binding and whose drain is over has no active request of that device |
| Releases.ReleaseDrains | kernel/src/virtusb_backend.c:480-510 | Over every run, what is queued of a device plus what was taken off is what there was plus what submit admitted: a drain stalls only on submissions to a device that is bound again |
| Releases.UnboundAdmitsNone | kernel/src/virtusb_backend.c:198-209 | While a device stays unbound nothing of it is admitted, so the drain of a release ends |
| Wakeups.ReadyOwesWake | kernel/src/virtusb_backend.c:260-276 | If a step stops the backend, or makes a request pending for the device an owner is bound to, where neither was so before, its own thread then owes a wake-up |
| Wakeups.NoLostWakeup | kernel/src/virtusb_backend.c:332-337 | In every reachable state, if a fetch sleeps while the backend stops or a request is pending for the device its owner is bound to, some thread is about to wake all waiters |
| Wakeups.SleepExact | kernel/src/virtusb_backend.c:332-337 | Over every run a fetch sleeps on if and only if its thread is not interrupted and never reads a wait predicate that holds |
| Wakeups.ReleasedOwnerSleeps | kernel/src/virtusb_backend.c:260-276 | So it sleeps on, through every wake-up, while its owner has no binding and nobody stops the backend |
| Wakeups.DesertedSleeper | kernel/src/virtusb_backend.c:332-337 | A reachable machine has a fetch that sleeps for an owner without a binding |
| Sections.ReadyExact | kernel/src/virtusb_backend.c:260-276 | The wait predicate of a fetch holds exactly if the backend stops or a request is pending for the device its owner is bound to |
| Calls.FetchLeads | kernel/src/virtusb_backend.c:299-337 | A fetch copies exactly if a request is pending for its owner's device, even while the backend stops; it waits exactly if its owner is bound, nothing is pending, the backend does not stop and the caller may block; otherwise it returns |
| Calls.CheckLeads | kernel/src/virtusb_backend.c:332-337 | A waiter that reads its condition goes on to fetch exactly if the backend stops or a request is pending for its owner's device; otherwise it sleeps, or waits again if woken meanwhile |
| Calls.WakeLeads | kernel/src/virtusb_backend.c:220-220 | A wake-up sets every sleeper and waiter before its condition |
| Calls.StoppedLeavesNoSleeper | kernel/src/virtusb_backend.c:520-533 | In a reachable machine where a stop has returned and no wake-up is owed, no fetch sleeps |
| Calls.StoppingFetchReturns | kernel/src/virtusb_backend.c:321-324 | Once the backend stops, a fetch takes what is pending for its owner's device or returns, and does not wait |
| Calls.CopyLeads | kernel/src/virtusb_control.c:422-441 | A copy that succeeds delivers the request; one that fails leads to the rollback |
| Calls.InterruptLeads | kernel/src/virtusb_backend.c:335-337 | A signal ends the wait of a fetch, which returns with nothing |
| Calls.EnqueueLeads | kernel/src/virtusb_hcd.c:296-308 | A URB gets a NEW transfer under the next id with its device and length, one reference, and a reference to the device; nothing else changes |
| Calls.LockLeads | kernel/src/virtusb_backend.c:198-210 | Submit accepts exactly if the backend does not stop, the device is bound and the URB can be linked: then the request is the last pending one, the URB linked and a wake-up owed; otherwise nothing changes |
| Calls.RefuseLeads | kernel/src/virtusb_backend.c:214-218 | In every reachable state a refused transfer ends CANCELLED and loses the request's reference |
| Calls.RegisterLeads | kernel/src/virtusb_backend.c:84-107 | Register binds exactly if the backend does not stop and neither owner nor device is bound, and then owes a wake-up |
| Calls.RollbackLeads | kernel/src/virtusb_backend.c:374-387 | A rollback makes the fetched request the head of pending without an owner and owes a wake-up, or changes nothing if it is not active any more |
| Calls.CompleteMisses | kernel/src/virtusb_backend.c:404-415 | A completion that names no active request of its owner changes nothing |
| Calls.ReleaseLeads | kernel/src/virtusb_backend.c:462-474 | A release takes exactly its owner's binding off and goes on to drain that device |
| Calls.ReleaseRoundLeads | kernel/src/virtusb_backend.c:480-507 | A round of release takes a request of the device as long as one is pending or one of this owner is active, to be cancelled; otherwise the drain is over |
| Calls.StopLeads | kernel/src/virtusb_backend.c:529-533 | A stop sets the flag and owes a wake-up before it drains |
| Calls.StopRoundLeads | kernel/src/virtusb_backend.c:535-556 | A round of stop takes the first pending request, or else the first active one, to be cancelled; otherwise the drain is over |
| Calls.GivebackLeads | kernel/src/virtusb_backend.c:23-29 | A thread gives back the URB of the request it holds once, after its transfer's end is written |
| Calls.AcceptedIsSomewhere | kernel/src/virtusb_backend.c:200-257 | In every reachable state an accepted transfer that has not been given back has a request on a list or in a thread's hand |
| Calls.GivenIsGone | kernel/src/virtusb_backend.c:23-29 | One that has been given back was accepted, and has no request anywhere |
| Calls.UnpublishedForGood | kernel/src/virtusb_object_manager.c:79-133 | A device that has left the registry is found by no lookup and no URB in any continuation |
| Calls.UnpublishLeads | kernel/src/virtusb_object_manager.c:98-99 | Unregistering a device takes it out of the registry |
| Calls.NoThreadStuck | kernel/src/virtusb_backend.c:166-583 | Whatever the other threads do, a thread inside a call can take its next step and moves; only a sleeper needs a signal or a wake-up |
| Endings.TakenDecides | kernel/src/virtusb_backend.c:411-448 | Over every run the step that takes a request off the lists decides its transfer's end, whatever runs afterwards: COMPLETED if it is a completion no longer than was asked for, CANCELLED if it is a longer one, a cancel, a release or a stop |
| Endings.NamedIsTaken | kernel/src/virtusb_backend.c:402-412 | In every reachable state a completion by its owner, and a cancel of a queued URB, takes exactly that request off the lists |
| Lifecycle.WholeLife | kernel/src/virtusb_backend.c:166-450 | A reachable machine has one accepted transfer, which was delivered, completed, given back and released |
| Delivery.DeliveredInOrder | kernel/src/virtusb_control.c:422-434 | If no request of a device is fetched while an earlier one may still be copied out or put back, then over every run each device's requests are delivered in the order submit accepted them |
| Reorderings.SafeIsExact | kernel/src/virtusb_control.c:422-434 | That discipline is exact: wherever it has been kept so far, a step keeps it if and only if every disciplined continuation delivers in order |
| Reorderings.UndecidedReorders | kernel/src/virtusb_backend.c:377-380 | A fetch that breaks it leads, by disciplined steps alone, to a delivery of the younger request before the older one of its device |
| Rebinding.RebindingReorders | kernel/src/virtusb_backend.c:466-472 | A reachable machine whose deliveries are out of order, although every owner settles each request before its own next fetch |
| Rollbacks.FetchRollback | kernel/src/virtusb_backend.c:363-388 | Fetch followed by rollback restores the active list and every device's pending order |
| Rollbacks.UndoRestores | kernel/src/virtusb_backend.c:311-388 | n fetches undone in reverse order restore the active list and every device's pending order |
| Drains.ReleaseRound | kernel/src/virtusb_backend.c:480-510 | One round of release takes the device's first remaining request; what handlers add meanwhile is never for that device, and no other device loses a request or its place |
| Drains.ReleaseEnds | kernel/src/virtusb_backend.c:505-507 | When a round finds nothing, the device has nothing on either list, and every other active request again has a bound owner |
| Drains.StopRound | kernel/src/virtusb_backend.c:535-562 | One round of stop takes the first request of what is left, and nothing is added |
| Coherence.ActiveOwner | kernel/src/virtusb_backend.c:489-498 | Between operations an active request of a bound device belongs to the owner bound to it |
| Coherence.UnbindCoherent | kernel/src/virtusb_backend.c:466-474 | Taking a binding off exempts that one device, and no other, from having a bound owner |
| Coherence.DetachLinked | kernel/src/virtusb_backend.c:250-252 | Taking a request off and unlinking its URB keeps the linked URBs equal to the queued ones |
| Sections.RegisterExact | kernel/src/virtusb_backend.c:84-104 | ESHUTDOWN while stopping, EBUSY if owner or device is bound, otherwise one binding appended and nothing else |
| Sections.SubmitExact | kernel/src/virtusb_backend.c:198-210 | ESHUTDOWN while stopping, ENODEV if no binding names the device, the error of linking if that fails, otherwise the request appended to pending and nothing else |
| Sections.FetchRefused | kernel/src/virtusb_backend.c:302-330 | ENODEV without a binding; with one and nothing pending for its device, ESHUTDOWN while stopping and EAGAIN otherwise |
| Sections.FetchMoves | kernel/src/virtusb_backend.c:309-319 | Whether or not the backend stops, the first pending request of the bound device goes to the end of active with its owner, and nothing else moves |
| Sections.RollbackExact | kernel/src/virtusb_backend.c:374-386 | The first active request with this owner and id goes to the head of pending without an owner; ENOENT if there is none |
| Sections.CancelTakes | kernel/src/virtusb_backend.c:114-133 | Cancel takes the URB's first request, from pending before active |
| Sections.CompleteTakes | kernel/src/virtusb_backend.c:135-149 | Completion takes the first active request with this owner and id and no pending one |
| Sections.ReleaseTakes | kernel/src/virtusb_backend.c:480-500 | A round of release takes the device's first pending request, or else its owner's first active one of the device, or ends |
| Sections.StopTakes | kernel/src/virtusb_backend.c:535-552 | A round of stop takes the head of pending, or else of active, or ends |
| Sections.DetachRemoves | kernel/src/virtusb_backend.c:250-252 | The request at a slot leaves its list, and nothing else changes |
| Backends.Backend.constructor | kernel/src/virtusb_backend.c:31-39 | A new backend is empty, not stopping, and satisfies the invariant |
| Backends.Backend.Find | kernel/src/virtusb_backend.c:114-164 | Each list walk returns the first request that matches, or the end |
| Backends.Backend.Register | kernel/src/virtusb_backend.c:71-112 | Refuses while stopping and when owner or device is bound; otherwise appends the binding and changes nothing else |
| Backends.Backend.Submit | kernel/src/virtusb_backend.c:166-222 | All error paths in order; on success the request is the last pending one and holds a reference, on failure the transfer is CANCELLED with that error and the reference is gone |
| Backends.Backend.Enqueue | kernel/src/virtusb_hcd.c:239-333 | All error paths in order; an accepted URB has a new transfer held by its request alone, with every field, the URB's setup packet and a copy of its bytes, and these are what is recorded as sent under the new id |
| Backends.Backend.Cancel | kernel/src/virtusb_backend.c:224-258 | A linked URB is given back once with the given status and leaves the list, its transfer ends CANCELLED with that status and has lost the request's reference, every other entry stays and no other transfer is touched; otherwise EIDRM and nothing changes |
| Backends.Backend.Fetch | kernel/src/virtusb_backend.c:287-361 | The owner's first pending entry, with its URB and transfer, becomes the last active one and nothing else moves; the record tells everything about that transfer and everything that was sent under its id, OUT bytes as they were at enqueue followed by zeros; all references are as before |
| Backends.Backend.Describe | kernel/src/virtusb_backend.c:340-357 | The record has the transfer's fields and setup packet; OUT data is the payload with its length, every byte after it is zero, and IN transfers report no data |
| Backends.Backend.Rollback | kernel/src/virtusb_backend.c:363-388 | The owner's active entry with this id, with its URB and transfer, becomes the head of pending without an owner and nothing else moves; EINVAL for id 0, ENOENT if there is none |
| Backends.Backend.FetchOut | kernel/src/virtusb_control.c:410-441 | A record that is copied out is that of the fetch, so OUT bytes are those at enqueue; one that cannot be returns EFAULT, its entry is the head of pending, and the active list and every device's pending order are as they were |
| Backends.Backend.RecordsTell | kernel/src/virtusb_backend.c:340-357 | Whatever operations ran, every record that any fetch has told bears the device, fields, setup packet and OUT bytes that were sent under its id, and no operation changes what was sent |
| Backends.Backend.Complete | kernel/src/virtusb_backend.c:390-450 | A completion for the owner's request gives back once the URB that was sent under that id and drops its reference; an IN completion changes exactly the first actual_length bytes of that URB's buffer to the completion's and reports that length and status; too long a length ends CANCELLED with EMSGSIZE and leaves the buffer alone; no other entry, transfer, URB or buffer is touched |
| Backends.Backend.Finish | kernel/src/virtusb_backend.c:417-449 | The unlocked tail of complete: copies stay in bounds, and transfer_complete cannot fail there |
| Backends.Backend.ReleaseOwner | kernel/src/virtusb_backend.c:452-518 | Terminates although each giveback may submit again; the owner's device ends unbound with no request, each of its requests is given back with ESHUTDOWN in order, its transfer is CANCELLED and loses the request's reference; every entry of another device stays in its place and untouched, and the only others are new |
| Backends.Backend.Stop | kernel/src/virtusb_backend.c:520-583 | Terminates although handlers submit; gives every queued URB back with ESHUTDOWN, pending before active, with its transfer CANCELLED and the request's reference dropped, and leaves all lists and links empty |
| Transfers.Create | kernel/src/virtusb_transfer.c:25-99 | Null exactly on a bad argument or a failed allocation; otherwise a NEW transfer with the next id, one reference and, if it goes out, a copy of the caller's bytes |
| Transfers.Transfer.Complete | kernel/src/virtusb_transfer.c:132-154 | Completes an open transfer with a length that fits, else EINVAL or EMSGSIZE and no change |
| Transfers.Transfer.Cancel | kernel/src/virtusb_transfer.c:156-172 | Cancels an open transfer, else EINVAL and no change |
| Histories.StoredAgreesWithLink | kernel/src/virtusb_hub.c:191-250 | In every reachable state an enabled port is connected with a speed; a port with a speed is connected, and the speed is HIGH, FULL or LOW as the highest capability of its device says; reset bits are clear and no bitmap has a bit outside the ports |
| Histories.ResetIffConnected | kernel/src/virtusb_hub.c:213-250 | In every reachable state the host's PORT_RESET succeeds exactly if the port is connected; the port is then enabled and not suspended, its reset change is noted, and its speed is HIGH, FULL or LOW as the highest capability of its device says |
| Histories.ConnectedExact | kernel/src/virtusb_hub.c:420-441 | In every reachable state a port is connected exactly if it has VBUS and a device attached to it signals |
| Histories.FastestOf | kernel/src/virtusb_hub.c:44-78 | In every reachable state the speed of an attached device's link is HIGH if it has that capability, else FULL if it has that, else LOW |
| Effects.PortExact | kernel/src/virtusb_hub.c:289-398 | A port's VBUS is changed by the power requests of control plane and host alone, in ganged mode by one to any port, and its over-current condition by its setter alone |
| Effects.DeviceExact | kernel/src/virtusb_device.c:53-219 | A device is attached only while it and the port are free, detached, signaled and destroyed only by the requests that name it while it is registered, and by nothing else |
| Effects.DevicesExact | kernel/src/virtusb_device.c:22-51 | One device appears, under the next id and with the caller's capabilities, exactly if these are valid and ids and memory suffice; it is registered unless its id could not be told |
| Effects.StoredExact | kernel/src/virtusb_hub.c:191-250 | For every request: a port is enabled afterwards exactly if it was reset while connected, or was enabled, is still connected and was not disabled; likewise its suspend bit and its speed |
| Effects.ChangesExact | kernel/src/virtusb_hcd.c:473-524 | For every request and port: each change bit is set afterwards exactly if it was set or its event happened, and it was not cleared |
| Effects.SettingsExact | kernel/src/virtusb_hub.c:252-287 | The modes and the hub's over-current condition are changed by their setters alone |
| Effects.AnswerExact | kernel/src/virtusb_hcd.c:473-558 | The error code of every request, in every case |
| Requests.Attaches | kernel/src/virtusb_device.c:124-160 | Attaching a registered loose device to a free port succeeds, links both ends and touches no other port or device; the port is connected exactly if it has VBUS and the device signals, and marked if so |
| Requests.Detaches | kernel/src/virtusb_device.c:162-185 | Detaching clears both ends and touches no other port or device; the port is not connected, and marked if it was |
| Requests.Signals | kernel/src/virtusb_device.c:187-219 | Signaling changes that device alone; its port is connected exactly if the device signals and the port has VBUS, and marked if that is a change |
| Requests.Powers | kernel/src/virtusb_hcd.c:489-545 | PORT_POWER set or cleared by the host, or by the control plane, leaves the port with VBUS or without, in ganged mode every port, and nothing else about any port or device; each port whose connection that changes is marked |
| Requests.ComesUp | kernel/src/virtusb_hub.c:213-250 | On a hub of any size and for all valid capabilities, a reachable state has a device on a connected port that is enabled at the device's highest speed |
| Histories.ClearsOneBit | kernel/src/virtusb_hcd.c:473-524 | Clearing any feature but power clears that port's own bit and leaves every other bit, speed, port and device as it was; exactly the seven clearable features succeed |
| Histories.SuspendsOneBit | kernel/src/virtusb_hcd.c:535-541 | Setting PORT_SUSPEND sets that port's bit and changes nothing else, whether or not the port is connected |
| Suspension.SuspensionExact | kernel/src/virtusb_hcd.c:535-541 | Where every suspended port is connected, the one request that ends this is suspending a port that is not connected: every other request of any kind keeps it |
| Suspension.PoliteHosts | kernel/src/virtusb_hub.c:191-211 | Over every run in which ports are suspended only while connected, every suspended port is connected |
| Suspension.SuspendedUnconnected | kernel/src/virtusb_hcd.c:535-541 | A reachable state has a suspended port without a connection |
| Histories.NeverNoted | kernel/src/virtusb_hub.c:191-250 | Over every run no enable, suspend or over-current change bit is set |
| Histories.ConnectionChangeExact | kernel/src/virtusb_hub.c:205-210 | Over every run C_PORT_CONNECTION is set exactly if the port's derived connection has changed at some request and no request from then on cleared it or reset the hub |
| Histories.NotificationsConserved | kernel/src/virtusb_hub.c:9-14 | With a callback installed, notifications equal the connection and reset change bits now set plus those cleared so far; without one there are none |
| Histories.GangedIsInTurn | kernel/src/virtusb_hub.c:303-345 | A ganged power request leaves the state, bits and notifications that individual requests to ports 1..n in order would |
| Histories.GangedSwitchesAll | kernel/src/virtusb_hub.c:322-348 | A ganged request switches every port, and marks and announces exactly the ports whose connection that changes |
| Histories.TopologyIsMatching | kernel/src/virtusb_port.c:44-81 | In every reachable state peers are reciprocal, no two ports share a device, a URB's port routes to the device attached there, and an attached device is registered |
| Agreement.DoLawful | kernel/src/virtusb_hcd.c:473-558 | Every request keeps the invariant, tells the hub once per newly set change bit, and changes connection change bits only by toggles and acknowledgements |
| Agreement.SettledKeeps | kernel/src/virtusb_device.c:147-157 | After a change of one port's link, comparing and marking restores the agreement of stored and derived state |
| Agreement.DestroyGood | kernel/src/virtusb_device.c:53-75 | Destroying a registered device by force cannot fail, and leaves it detached and unregistered |
| Shutdown.RoundWinds | kernel/src/virtusb_device.c:82-92 | Each round of the forced shutdown unregisters exactly one device and connects nothing |
| Shutdown.ShutdownIsComplete | kernel/src/virtusb_module.c:110-127 | From every reachable state the forced shutdown ends with no device registered, no port attached or connected, and every port that was connected marked |
| Shutdown.ShutdownLoop | kernel/src/virtusb_device.c:77-93 | The loop terminates and computes that shutdown |
| Hubs.Hub.constructor | kernel/src/virtusb_hub.c:80-111 | A new hub shows the boot state |
| Hubs.Hub.Mark | kernel/src/virtusb_hub.c:191-211 | The registers and the packed speeds change as marking a connection change says |
| Hubs.Hub.ResetPort | kernel/src/virtusb_hub.c:213-250 | The registers go through the reset and show its outcome and error |
| Hubs.Hub.SetPortPower | kernel/src/virtusb_hub.c:289-320 | Switches one port, or all in ganged mode, and shows the outcome |
| Hubs.Hub.SetAllPortsPower | kernel/src/virtusb_hub.c:322-348 | The loop over the ports computes the ganged outcome |
| Hubs.Hub.Reset | kernel/src/virtusb_hub.c:113-125 | Protocol state and change bits are zero; topology, power and signaling are untouched |
| Hubs.Hub.ClearFeature | kernel/src/virtusb_hcd.c:473-524 | Every feature clears its own bit and no other, power goes to the power request, unknown features are EPIPE; the device registry stays as it is |
| Hubs.Hub.SetFeature | kernel/src/virtusb_hcd.c:526-558 | Suspend, power and reset do what they name; other features are EPIPE; the device registry stays as it is |
| Hubs.Hub.Attach | kernel/src/virtusb_device.c:124-160 | Links two free ports both ways and marks the connection if it changes; EBUSY if either is taken |
| Hubs.Hub.Unplug | kernel/src/virtusb_device.c:162-185 | Clears both ends and marks the port if it was connected |
| Hubs.Hub.Signal | kernel/src/virtusb_device.c:187-219 | Sets the device's signaling and marks the port if its connection changes |
| Hubs.Hub.Create | kernel/src/virtusb_device.c:22-51 | All error paths; on success a new loose upstream port is published under the next id |
| Hubs.Hub.Destroy | kernel/src/virtusb_device.c:53-75 | EBUSY for an attached device unless forced; otherwise it falls silent, is detached with its port marked, and leaves the registry, or ENOENT if it was not in it |
| Hubs.Hub.ShutdownAll | kernel/src/virtusb_device.c:77-93 | The loop over the registry terminates, leaves it empty, and the registers and links show the shutdown of the whole state |
| Hubs.Hub.IsConnected | kernel/src/virtusb_hub.c:420-441 | Following the references answers whether the port is attached, powered and signaled |
| Hubs.Hub.DetermineSpeed | kernel/src/virtusb_hub.c:44-78 | Following the references gives the highest common speed |
| Hubs.Hub.FindPortNumber | kernel/src/virtusb_hub.c:171-189 | The number of the port with this address, or ENOENT if the hub has none |
| Hubs.SpeedWritten | kernel/src/virtusb_hub.c:28-42 | Writing one port's speed changes the speed read for that port and for no other |
| Bits.ReadAfterWrite | kernel/src/virtusb_hub.c:16-42 | For every width and all positions, reading after writing gives the value where it was written and the old value elsewhere |
| Bits.Places | uapi/include/virtusb_uapi.h:117-128 | The fields follow each other from the lowest bit of the first word on, and every field lies inside a word of the array |
| Bits.PortsSetClear | kernel/src/virtusb_hcd.c:29-42 | Setting and clearing a bit adds and removes one port and no other |
| Encodings.ChangeMaskTells | kernel/src/virtusb_hcd.c:44-62 | The mask has the ports with any change, and bit 0 exactly for the hub's over-current change |
| Encodings.StatusRoundTrip | kernel/src/virtusb_hcd.c:349-372 | For every hub size a host reads exactly the mask from the status bytes, and there are none exactly if nothing changed |
| Encodings.HubStatusData | kernel/src/virtusb_hcd.c:349-372 | No bytes if nothing is pending, otherwise 1 to 4 by the number of ports; each bit tells every change of its port, the lowest the hub's over-current change alone, and no other; the rest of the buffer is untouched |
| Encodings.HcdPortStatus | kernel/src/virtusb_hcd.c:64-111 | Each bit of the status word tells its own fact about the port and no other bit is set |
| Encodings.HcdPortChange | kernel/src/virtusb_hcd.c:113-139 | Each bit of the change word tells its own pending change and no other bit is set |
| Encodings.ControlPortState | kernel/src/virtusb_control.c:39-100 | Each bit of status and change tells its own fact, for a port or for the hub at position 0, and the speed code is 0 to 3 |
| Encodings.ControlPorts | kernel/src/virtusb_control.c:124-133 | One entry for each port, in order |
| Encodings.EncodersAgree | kernel/src/virtusb_control.c:39-100 | In every reachable state the host's and the control plane's encodings of a port agree on status, change and speed, and each decodes to what it encodes |
| Registry.NextIsFree | kernel/src/virtusb_object_manager.c:48-61 | In every run the counter's id is free, so insertion never collides, and the counter never passes 2^32 |
| Registry.IdNamesOneObject | kernel/src/virtusb_object_manager.c:66-70 | Over a whole run an id names at most one object |
| Registry.GoneForever | kernel/src/virtusb_object_manager.c:79-133 | An issued id that is no longer registered is never found again |
| Registry.RegisterPublishes | kernel/src/virtusb_object_manager.c:26-77 | EALREADY, ENOSPC and ENOMEM in this order; otherwise the object is found under the next id, the counter moves by one and every other id finds what it did |
| Registry.UnregisterHides | kernel/src/virtusb_object_manager.c:79-113 | The id under which the object is found finds nothing any more and every other id what it did; ENOENT if it did not find the object |
| Registry.FoundExactly | kernel/src/virtusb_object_manager.c:26-133 | Over a whole run an id finds an object exactly from the call that registered it under that id until it is unregistered |
| Registry.ObjectManager.Register | kernel/src/virtusb_object_manager.c:26-77 | All error paths in order; on success the object has the next id, is published and is held once more |
| Registry.ObjectManager.Unregister | kernel/src/virtusb_object_manager.c:79-113 | A published object is removed and loses the registry's reference, and is released exactly if that was the last; otherwise ENOENT |
| Registry.ObjectManager.Lookup | kernel/src/virtusb_object_manager.c:115-133 | Finds exactly what is published under the id, with a reference |
| Registry.ObjectManager.LookupFirstByType | kernel/src/virtusb_object_manager.c:135-154 | Finds the published object of that type with the lowest id, with a reference, or nothing if there is none |
| Registry.Object.Put | kernel/src/virtusb_object.c:7-53 | The release callback runs when the count reaches zero and not before |

## What the code does not promise

- Per-device order needs a discipline from the callers: no request of a device
  may be fetched while an earlier one of it is being copied out, or has failed
  to be and can still be rolled back. A fetch that breaks it is not harmless
  even if nothing is ever rolled back, since the thread with the older request
  may simply be slower (`Reorderings.UndecidedReorders`); with it, every run is
  in order, and it is the weakest discipline of that kind
  (`Reorderings.SafeIsExact`). It is about devices and not owners: a rollback
  that an owner still owes after its release overtakes the requests of an owner
  that has bound the device since (`Rebinding.RebindingReorders`).
- PORT_SUSPEND is set without looking at the connection, so a suspended port may
  have none (`Suspension.SuspendedUnconnected`). Exactly that request is to
  blame (`Suspension.SuspensionExact`).
- No code sets the enable, suspend and over-current change bits, so a host never
  sees them (`Histories.NeverNoted`).
- A fetch that sleeps when its owner's binding is released does not return: its
  wait predicate is false without a binding, so each wake-up puts it back to
  sleep (`Wakeups.ReleasedOwnerSleeps`), and this state is reachable
  (`Wakeups.DesertedSleeper`). Only a signal, or a wait predicate that holds when
  the thread reads it, ends the sleep; a new binding alone does not
  (`Wakeups.SleepExact`).

## Left out

- Backends.Backend.RunHandler: completion handlers submit URBs and do nothing else; handlers that cancel other URBs appear as other threads of the step relation.
- Backends.Backend.Fetch: one pass of the loop; waiting, waking and interruption are in the step relation.
- Backends.HcdRequest: a request is a value on the lists, since its owner is its only field that changes; the step relation carries the device references that bindings and transfers hold.
- Machines.Enqueue: finding a URB's device and taking its reference is one step; the source takes neither a lock nor a reference between the two (kernel/src/virtusb_hcd.c:169-207, 256-300), so `Guarantees.DeviceReferences` and `Guarantees.ReachedDeviceIsLive` rest on the device staying attached meanwhile.
- Transfers.Transfer: the transfer's own buffer is a sequence; URB buffers are arrays.
- Topology.World: one hub, the root hub, and one host controller; the operations are serialized, as the headers require of callers.
- Topology.World.CreateAndTell: the copy-out of a new device's id, and its undoing, are on values; the in-place registry of a hub is a map from ids to ports, without the reference counts that `Registry` has.
- Topology.World.SetPortOverCurrent: the over-current and mode setters are on values only.
- Hubs.Hub.Enroll: a device's upstream port names its owner by id instead of by address.
- Bits.Up: shifts are by one place at a time, repeated.
- 64-bit transfer ids do not wrap around.
- Null arguments and the EINVAL exits for them.
- Allocation, insertion and copy failures, and the outcome of linking a URB to its endpoint, are parameters.
- A URB is not submitted again while it is in flight, as the USB core guarantees; addresses are numbers.
- Interrupt masking, real time, the poll file operation and debug output.
- Hub descriptors, GetHubStatus and SetHubFeature, which one branch settles each.
- Platform and character device registration, module parameters and the user-space library and tools.
