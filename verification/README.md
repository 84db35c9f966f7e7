# Verified models of the Goodix 53x5 driver

A model of the hardest parts of the Goodix 53x5 fingerprint driver for libfprint
and of two of its tools, with machine-checked proofs of what they keep. Check
everything with `dafny verify dfyconfig.toml`.

## What is modelled

- **Hardware ownership and scanning** (`Ownership*.dfy`). The session, the scan
  coordinators, the reader and the CPU worker as one state machine over the
  fields of session.c and scan.c. Every external occurrence runs a stack of
  nested callbacks to its end; what the sensor, the engine and the application
  decide is an arbitrary choice of the step. The invariant ties the owner slots
  to the session's flags, says that exactly one thing is owed to whoever owns
  the hardware, and that whoever a waiting request depends on has been told.
  `OwnershipDriver.dfy` is the same as a device object updated in place, with its
  coordinators as objects of their own; every handler, called in control of the
  hardware, leaves it valid.
- **Command exchange** (`Transport*.dfy`). Submission, ACK, response slots,
  deferred completion over a batch, one retry. The rules are stated about the
  history of events, and every reachable history obeys them; `TransportAcks.dfy`
  ties what a command reports to the packets that arrived.
- **Framing** (`Reassembly*.dfy`, `Probe.dfy`). Messages, 64-byte cells, the
  resynchronising reassembler, and the detection tool's own receive loop on the
  same cells.
- **Base generations** (`BaseGeneration.dfy`). Admission of a frame pair, ids,
  ownership of reference and process state, deliveries and use counts.
- **Crypto** (`SensorFrame.dfy`, `Checksums.dfy`, `Octets.dfy`). The sensor-frame
  decoder against the encoder it must undo, P_hash, CRC and OTP tables against
  their bit-serial forms.
- **Image arithmetic** (`Gradient.dfy`, `Integral.dfy`, `Gains.dfy`,
  `Metadata.dfy`, `Grid.dfy`). Sliding window, integral images, running-mean
  maps, metadata in least significant bits, with the source's wrap-around.
- **Calibration and recovery** (`Dac.dfy`, `Identification.dfy`, `Esd.dfy`). The
  dynamic DAC controller over readings and reconstructions, the open's chip
  identification, and the ESD repair with its arm machine.
- **State file** (`Persistence*.dfy`, `CoarseReference.dfy`). The file codec, the
  half-resolution reference and the temporary-file protocol.
- **Tools** (`Installer.dfy`, `Chronology.dfy`). The installer over a file map
  that may stop after any step, and the validator's replay history.

Most files hold the specification as functions, the laws about it as lemmas, and
last the code's own form: classes and loops proved equal to the specification.

## Where code and expectation part

- The header of transport.h describes the reported ACK status as the last
  accepted odd one; the code reports the last one that arrived, even or odd
  (`TransportAcks.ReportedStatus`; `TransportSafety.EvenAckReported` is a run
  that succeeds with an even status).
- A data command can succeed exactly when the policy table gives it a response
  slot (`TransportAcks.SucceedsIff`).
- Messages above 16381 bytes cannot be received, although the buffer holds 16384,
  because the padded last cell must fit too (`Reassembly.DeliveredIff`); the
  detection tool takes up to 65536 (`Probe.ReceivedIff`).
- A read that starts with a zero byte is dropped whole: a message whose command
  byte is zero is lost, with everything behind it, exactly when it opens its read
  (`Reassembly.ReadDelivers`).
- A configuration file torn by a stopped install is kept as the user's by the
  rerun (`Installer.TornConfigurationKept`).
- DAC defaults outside 5..481 let the controller leave its range
  (`Dac.ControlledIff`).
- An ESD or configuration event taken while a cycle is re-arming sends a settled
  cycle back to the event wait (scan.c, lines 749 to 774): it then needs one more
  sensor event to finish. The model follows the code.

## Model

| member | source | states |
|---|---|---|
| `OwnershipSafety.NeverFaults` | drivers/goodix53x5/device/session.c:61-241 | After every sequence of requests, cancels, suspends, closes, removals, packets, faults, completions, timers and callbacks: no modelled assertion of session.c or scan.c has failed, no owner was refused the wire, and no action was answered while its CPU job ran. |
| `OwnershipSafety.OneDriver` | drivers/goodix53x5/device/session.c:40-121 | In every reachable state at most one of the undetached foreground action, the maintenance owner (idle service or detached tail), the reader drain and power I/O drives the hardware; a command or event wait on the wire belongs to one of them. |
| `OwnershipSafety.AnsweredOnce` | drivers/goodix53x5/device/session.c:151-241 | Over every run the answers given to actions are exactly the requests 0, 1, 2, ... in order, less a current one; the quiesce continuations run are exactly those asked for, in order, less a waiting one. |
| `OwnershipSafety.OneJob` | drivers/goodix53x5/device/scan.c:1095-1168 | At most one CPU job is outstanding and only the attached action has it; no reference refresh runs beside it; an outcome is on its way to the parent exactly while the action is returning, which implies that the job has joined. |
| `OwnershipSafety.OnlyActionsCapture` | drivers/goodix53x5/device/scan.c:622-700 | A capture runs only for the action that drives the hardware; idle and health-wait coordinators never reach it, nor a CPU job. |
| `OwnershipSafety.OwnerIsBusy` | drivers/goodix53x5/device/scan.c:214-336 | Between callbacks an owner of the hardware is waiting for an event on the wire, has its own command or sub-machine running, or is parked on the one CPU job: somebody will call it back. |
| `OwnershipSafety.NoLostWakeup` | drivers/goodix53x5/device/session.c:76-121 | While a request or a quiesce waits, an owner, the reader drain or power work is still to report, and an owner that only listens for events has had its wait cancelled or is bounded by the health timer. |
| `OwnershipSafety.ReachableKeeps` | drivers/goodix53x5/device/scan.c:60-112 | The invariant of module OwnershipInvariant holds after every run from a closed device. |
| `OwnershipSession.StepKeeps` | drivers/goodix53x5/device/session.c:61-241 | Every single step, external or pending callback, keeps the ownership invariant. |
| `OwnershipSession.SettleKeeps` | drivers/goodix53x5/device/session.c:76-121 | From any state in which settling is owed, the invariant holds after it, whichever of pending action, quiesce and idle service it starts. |
| `OwnershipSession.ServiceKeeps` | drivers/goodix53x5/device/scan.c:984-1005 | When nobody owns the hardware and nothing is pending, starting the service keeps the invariant; in particular its assertion on owner and transport holds. |
| `OwnershipSession.RequestKeeps` | drivers/goodix53x5/device/session.c:151-176 | The invariant holds after a new action, whether it is refused, queued behind the service or settled at once. |
| `OwnershipSession.CancelKeeps` | drivers/goodix53x5/device/session.c:178-193 | The invariant holds after a cancel of a pending or an admitted action. |
| `OwnershipSession.QuiesceKeeps` | drivers/goodix53x5/device/session.c:214-241 | The invariant holds after a suspend or close request, whoever owns the hardware. |
| `OwnershipSession.JobDoneKeeps` | drivers/goodix53x5/device/scan.c:1095-1168 | The invariant holds after the end of the CPU job, whatever its result, in every state its coordinator can be in. |
| `OwnershipSession.StopOwnerKeeps` | drivers/goodix53x5/device/scan.c:1170-1193 | The invariant holds after the coordinator is stopped, also while its worker still runs. |
| `OwnershipSession.ReaderStoppedKeeps` | drivers/goodix53x5/device/session.c:61-74 | The invariant holds after the joined reader runs the continuation that waited for it. |
| `OwnershipSession.HealthTimerKeeps` | drivers/goodix53x5/device/scan.c:945-954 | The invariant holds after the health timer, expired or cancelled. |
| `OwnershipSession.SuspendEnds` | drivers/goodix53x5/device/session.c:1461-1504 | The invariant holds after the power part of a suspend, however it ends. |
| `OwnershipSession.ResumeEnds` | drivers/goodix53x5/device/session.c:1527-1611 | The invariant holds after a resume, however it ends. |
| `OwnershipHandlers.HandleKeeps` | drivers/goodix53x5/device/scan.c:411-871 | With its handler in control of the hardware, any state of any kind of coordinator re-establishes the invariant: exactly one command, wait, jump, parked job or hand-over is owed afterwards. |
| `OwnershipHandlers.MaybeFinishKeeps` | drivers/goodix53x5/device/scan.c:214-239 | A requested stop re-establishes the invariant, whether it finishes or waits for the job. |
| `OwnershipHandlers.DetachKeeps` | drivers/goodix53x5/device/scan.c:878-905 | Detaching a joined action re-establishes the invariant; its assertions on parent and service hold. |
| `OwnershipHandlers.CoordinatorDoneKeeps` | drivers/goodix53x5/device/scan.c:907-943 | A finished idle, health or tail coordinator leaves the invariant behind. |
| `OwnershipHandlers.EventDoneKeeps` | drivers/goodix53x5/device/scan.c:295-336 | Every way an event wait can end re-establishes the invariant. |
| `OwnershipHandlers.RefreshKeeps` | drivers/goodix53x5/device/scan.c:338-358 | A refresh re-establishes the invariant, started or deferred behind the job. |
| `OwnershipHandlers.ArmUpKeeps` | drivers/goodix53x5/device/scan.c:667-700 | Handing a frame to the worker while the next command starts re-establishes the invariant, so one job is never joined by a second. |
| `OwnershipHandlers.CycleSettledKeeps` | drivers/goodix53x5/device/scan.c:797-818 | A settled cycle re-establishes the invariant, also when the application cancels inside it. |
| `OwnershipHandlers.CleanupJoinKeeps` | drivers/goodix53x5/device/scan.c:819-837 | The first cleanup state re-establishes the invariant for idle, parked and detaching coordinators. |
| `OwnershipHandlers.CleanupHealthKeeps` | drivers/goodix53x5/device/scan.c:838-851 | The health tail re-establishes the invariant, with or without a child. |
| `OwnershipHandlers.OpDoneKeeps` | drivers/goodix53x5/device/scan.c:1016-1030 | Every end of a coordinator's command or sub-machine keeps the invariant. |
| `OwnershipDriver.Driver.Handle` | drivers/goodix53x5/device/scan.c:411-871 | Whichever coordinator object runs its handler, in whatever state, with the hardware in its control: the device is valid again afterwards. Valid means that the coordinator objects are distinct and in their slots, that no modelled assertion has failed, and that exactly one command, wait, jump, parked job or hand-over is owed to the owner. |
| `OwnershipDriver.Driver.CoordinatorDone` | drivers/goodix53x5/device/scan.c:907-943 | An idle coordinator, or a detached one at its last state, that is in control leaves its slot empty and the device valid. |
| `OwnershipDriver.Driver.MaybeFinish` | drivers/goodix53x5/device/scan.c:214-239 | A stop requested of a main state that neither dispatches nor waits leaves the device valid, whether it waits for the job, fails with the kept error or completes. |
| `OwnershipDriver.Driver.FireToken` | drivers/goodix53x5/device/scan.c:269-279 | When a cancellation of the action is owed, firing the token leaves the device valid. |
| `OwnershipDriver.Driver.StopOwner` | drivers/goodix53x5/device/scan.c:1170-1193 | When a stop of the coordinator is owed, delivering it leaves the device valid, also beside a running job. |
| `OwnershipDriver.Driver.JoinService` | drivers/goodix53x5/device/scan.c:1007-1014 | Asked of a running service with no action beside it, the stop leaves the device valid: the assertions on owner and slot hold. |
| `OwnershipDriver.Driver.SettleOwners` | drivers/goodix53x5/device/session.c:76-121 | Whenever settling is owed, it leaves the device valid, whichever of pending action, drain and service it starts in a new coordinator object. |
| `OwnershipDriver.Driver.StartService` | drivers/goodix53x5/device/scan.c:984-1005 | On an open, awake device that nobody owns and nobody waits for, the assertion on a free slot and idle transport holds and the device is valid afterwards. |
| `OwnershipDriver.Driver.RequestAction` | drivers/goodix53x5/device/session.c:151-176 | A new action on an open device without one leaves it valid, refused, queued or settled. |
| `OwnershipDriver.Driver.CancelAction` | drivers/goodix53x5/device/session.c:178-193 | Cancelling a pending or an admitted action leaves the device valid. |
| `OwnershipDriver.Driver.Quiesce` | drivers/goodix53x5/device/session.c:214-241 | A close request on an open device without action or power transition leaves it valid, whoever owns the hardware. |
| `OwnershipDriver.Driver.EventDone` | drivers/goodix53x5/device/scan.c:295-336 | However the wait of an awoken coordinator ended, the device is valid again. |
| `OwnershipDriver.Driver.DetachAction` | drivers/goodix53x5/device/scan.c:878-905 | An action whose job has joined can be detached: its assertions on parent and service hold and the device is valid afterwards. |
| `OwnershipDriver.Driver.CoordOpDone` | drivers/goodix53x5/device/scan.c:360-409 | Every end of a command or sub-machine that a coordinator started leaves the device valid. |
| `OwnershipDriver.Driver.WaiterGets` | drivers/goodix53x5/device/scan.c:295-336 | Whatever ends the event wait between callbacks, its waiter is told and the device stays valid. |
| `OwnershipDriver.Driver.Deliver` | drivers/goodix53x5/device/session.c:61-241 | From a valid device, any occurrence whatever moves it by exactly one specified step to a valid one, and no modelled assertion fails. |
| `OwnershipDriver.Driver.Play` | drivers/goodix53x5/device/session.c:61-241 | From a valid device, so does every run of occurrences. |
| `TransportSafety.RunsAreLawful` | drivers/goodix53x5/device/transport.c:161-224 | Every run of requests, writes, batches of packets, faults and time-outs leaves a lawful history: nothing completes that is not running; a completion follows one or two submissions; success needs an odd ACK of the command's own byte and, for data commands, a response of its slot published, both after the latest submission. |
| `TransportSafety.ReportedOnce` | drivers/goodix53x5/device/transport.c:538-589 | In a lawful history every accepted operation has been reported exactly once, except the one still running. |
| `TransportSafety.TwoAttemptsEach` | drivers/goodix53x5/device/transport.c:207-224 | In a lawful history there are at most two submissions for each accepted command. |
| `TransportAcks.ReportedStatus` | drivers/goodix53x5/device/transport.c:686-692 | Over every run, a command that succeeds reports the status of the last ACK packet for its byte that arrived after its last submission, and an odd one did arrive since; so the reported status is odd exactly when no even ACK came last. |
| `TransportAcks.EndsWithLast` | drivers/goodix53x5/device/transport.c:686-692 | Whatever a read holds, a command that ends with it, waiting for its ACK or its response, reports the last ACK for its byte in that read, or the retained one when there is none. |
| `TransportAcks.SucceedsIff` | drivers/goodix53x5/device/transport.c:118-174 | Some run lets a data command with a given byte succeed if and only if the policy table gives that byte a response slot. |
| `TransportAcks.UnknownDataFails` | drivers/goodix53x5/device/transport.c:118-174 | A data command without a slot in the policy table succeeds in no run. |
| `TransportSafety.EvenAckReported` | drivers/goodix53x5/device/transport.c:682-692 | A concrete read in which an even ACK replaces the odd one that ended the wait: the command succeeds with an even status. |
| `TransportSafety.AckEndsCommand` | drivers/goodix53x5/device/transport.c:1004-1078 | Whatever a read holds, a command without data that waits for its ACK ends with it if and only if an odd ACK of its own byte is among the packets or one of them fails the wait (an overflow, an empty status reply, a short manual reply, a malformed finger packet, or a truncated ACK before the odd one); it fails exactly in the latter case, an odd ACK or not, and otherwise succeeds. |
| `TransportSafety.DataEndsCommand` | drivers/goodix53x5/device/transport.c:504-589 | Whatever a read holds, a data command waiting for its ACK or its response ends with it if and only if a packet fails the wait or its odd ACK has been or is in it and its slot is or becomes ready. It reports a protocol error if a packet failed it; else an I/O error exactly if it asked for an image and the last image was rejected, a protocol error exactly if its cached reply cannot be viewed, and none otherwise. |
| `TransportSafety.StepKeeps` | drivers/goodix53x5/device/transport.c:281-310 | Every step keeps the fields of the running operation in agreement with the history. |
| `TransportDriver.Channel.Submit` | drivers/goodix53x5/device/transport.c:313-374 | A submission counts an attempt, forgets the ACK and revokes the slot's readiness. |
| `TransportDriver.Channel.Complete` | drivers/goodix53x5/device/transport.c:538-589 | Defers inside a batch, keeping the first error; otherwise settles the response checks and concludes. |
| `TransportDriver.Channel.Conclude` | drivers/goodix53x5/device/transport.c:191-224 | Retries once under the policy, else detaches the operation and reports it. |
| `TransportDriver.Channel.TakeAck` | drivers/goodix53x5/device/transport.c:607-624 | An accepted ACK completes a command whose response is already there. |
| `TransportDriver.Channel.Written` | drivers/goodix53x5/device/transport.c:281-310 | The write's end leads to the ACK wait, with a retained odd ACK honoured. |
| `TransportDriver.Channel.ReceiveFdt` | drivers/goodix53x5/device/transport.c:860-895 | A finger-detection packet replaces the pending one, completes an event wait, or fails when malformed. |
| `TransportDriver.Channel.ReceiveAck` | drivers/goodix53x5/device/transport.c:919-939 | Odd status ends the ACK wait, even status continues it. |
| `TransportDriver.Channel.ReceiveImage` | drivers/goodix53x5/device/transport.c:723-779 | Image packets publish, fail or set off a handshake restart. |
| `TransportDriver.Channel.ReceiveResponse` | drivers/goodix53x5/device/transport.c:794-859 | A response publishes its slot and completes a waiting command. |
| `TransportDriver.Channel.Receive` | drivers/goodix53x5/device/transport.c:626-964 | One parsed packet, in the receiver's own order of cases. |
| `TransportDriver.Channel.Batch` | drivers/goodix53x5/device/transport.c:1004-1078 | A whole read is seen before its owner yields. |
| `TransportDriver.Channel.Yield` | drivers/goodix53x5/device/transport.c:1041-1078 | The deferred completion, after the last packet. |
| `TransportDriver.Channel.Command` | drivers/goodix53x5/device/transport.c:1179-1206 | A command is accepted only by an idle transport. |
| `TransportDriver.Channel.SetPolicy` | drivers/goodix53x5/device/transport.c:161-174 | Slot and retry of the command come from the table. |
| `TransportDriver.Channel.Wait` | drivers/goodix53x5/device/transport.c:1208-1246 | A wait is accepted only by an idle transport and takes retained work at once. |
| `Reassembly.RoundTrip` | drivers/goodix53x5/device/transport.c:332-355 | From any reassembler state, whatever completed packets are retained, the padded cells of a built message of at most 16381 bytes deliver nothing before the last cell and there exactly its category, command and payload. |
| `Reassembly.DeliveredIff` | drivers/goodix53x5/device/proto.c:39-77 | The last cell delivers the message if and only if it is at most 16381 bytes long. |
| `Reassembly.TooLong` | drivers/goodix53x5/device/proto.c:131-189 | A longer message is never delivered by its last cell, even where its size field wraps. |
| `Reassembly.BufferBounded` | drivers/goodix53x5/device/proto.c:131-189 | For any sequence of cells the buffer never holds more than 16384 bytes. |
| `Reassembly.BuiltParses` | drivers/goodix53x5/device/proto.c:208-241 | The fields of a built message are read back from any buffer that starts with it. |
| `Reassembly.ReadDelivers` | drivers/goodix53x5/device/transport.c:1004-1078 | From any reassembler state, a read of any number of built messages of at most 16381 bytes each delivers exactly those messages, in order and without an error, if and only if the read is empty or its first command byte is nonzero. |
| `Reassembly.ReadOfMessages` | drivers/goodix53x5/device/transport.c:1038-1046 | A read of whole messages yields exactly their cells, unless the first message opens with a zero byte: then the whole read is dropped. |
| `ReassemblyDriver.Reassembler.FeedChunk` | drivers/goodix53x5/device/proto.c:131-184 | Buffer, length, expectation and selector become the specified state, or are left alone when refused. |
| `ReassemblyDriver.Reassembler.ParseMessage` | drivers/goodix53x5/device/proto.c:208-241 | Returns exactly the specified message, or none. |
| `ReassemblyDriver.Reassembler.ReceiveCell` | drivers/goodix53x5/device/transport.c:648-680 | Resynchronises, skips orphans, feeds and delivers as specified. |
| `ReassemblyDriver.BuildMessage` | drivers/goodix53x5/device/proto.c:39-77 | Fills the message bytes in place. |
| `ReassemblyDriver.ChunkMessage` | drivers/goodix53x5/device/transport.c:332-355 | The zero-filled buffer holds exactly the padded cells of the message. |
| `Probe.AlwaysEnds` | scripts/goodix53x5-detect.c:183-248 | Whatever is read, the probe's loop ends within 9*65536+8 reads, and what it returns is a checksummed message of its own announced length within the limit. |
| `Probe.ReceivedIff` | scripts/goodix53x5-detect.c:183-248 | The driver's cells of a message built with a checksum or with the no-check marker, with up to eight fruitless reads before each, come back as that message if and only if it is at most 65536 bytes long. |
| `Probe.ReceiveMessage` | scripts/goodix53x5-detect.c:183-248 | The loop computes the specified result of its reads. |
| `BaseGeneration.ReferenceIffGeneration` | drivers/goodix53x5/device/base.c:854-927 | After every run of acquisitions, forced refreshes, deliveries, reconstructions and closes a hardware reference exists iff a generation does, and generation ids have only grown. |
| `BaseGeneration.SameIdSameFrame` | drivers/goodix53x5/device/base.c:376-419 | Two deliveries under one id carry the same reference frame. |
| `BaseGeneration.UsesAreConsecutive` | drivers/goodix53x5/device/base.c:302-311 | The use counts delivered under an id are exactly 1, 2, 3, ... short of saturation. |
| `BaseGeneration.RefreshReaches` | drivers/goodix53x5/device/base.c:376-419 | After any run, a forced refresh reaches the next delivery, whatever engine answers and dropped marks come between, with a new id, its own frame and use 1 exactly when by then the setup is uninitialized or to be refreshed, or a mark of this or an earlier refresh still stands, a repair of an invalid base setting none; otherwise the consumed setup stays and its use count goes on. |
| `BaseGeneration.NextDelivery` | drivers/goodix53x5/device/base.c:376-419 | After any run and any stretch of acquisitions, answers and dropped marks, the next delivery carries the newest published reference exactly when a setup is due by then, else the one consumed before. |
| `BaseGeneration.CloseFramesAdmitted` | drivers/goodix53x5/device/base.c:35-75 | The pair difference never exceeds the largest interior difference, so close frames are admitted. |
| `BaseGeneration.ComputePairMad` | drivers/goodix53x5/device/base.c:35-74 | The nested loops compute the truncated mean interior difference. |
| `BaseGeneration.Owner.PublishBase` | drivers/goodix53x5/device/base.c:854-927 | An admitted pair replaces reference and identity and, unless refreshing, the generation; id exhaustion changes nothing. |
| `BaseGeneration.Owner.SelectSetup` | drivers/goodix53x5/device/base.c:376-419 | The setup frame and id follow the reference exactly when first used or refreshed. |
| `BaseGeneration.Owner.DeliverSample` | drivers/goodix53x5/device/base.c:302-311 | A delivery prepares the setup, counts one use and hands both over. |
| `BaseGeneration.Owner.RetainProcess` | drivers/goodix53x5/device/base.c:357-374 | The generation moves to the retained slot without its frames. |
| `BaseGeneration.Owner.DetachHardware` | drivers/goodix53x5/device/session.c:1425-1427 | Reconstruction and close retain the process state and drop the reference and its refresh mark. |
| `BaseGeneration.Owner.AllocateId` | drivers/goodix53x5/device/base.c:163-181 | The next id, or none at exhaustion. |
| `BaseGeneration.GenerationObject.TakeProcessState` | drivers/goodix53x5/device/base.c:191-241 | Only the process state moves between generations. |
| `Installer.StoppedInstall` | scripts/lib/milan-stack-files.py:222-249 | Stopping after any step: every path that differs from before is listed in the inventory then on disk, nothing outside old and new inventory has changed, and the unmanaged check of preflight passes again. |
| `Installer.FinishedInstall` | scripts/lib/milan-stack-files.py:222-249 | A finished install verifies, and every recorded path is as shipped or is a configuration file that was there and differed, untouched. |
| `Installer.RerunInstall` | scripts/lib/milan-stack-files.py:222-249 | A stopped install can be rerun; a finished rerun verifies. |
| `Installer.ConfigurationShipped` | scripts/lib/milan-stack-files.py:222-249 | A configuration file ends as shipped if and only if it was absent or already equal. |
| `Installer.TornConfigurationKept` | scripts/lib/milan-stack-files.py:201-214 | A concrete run: stopped while copying a configuration file, the finished rerun keeps the torn file as the user's. |
| `Installer.RemoveDeletesOwn` | scripts/lib/milan-stack-files.py:252-266 | Removal deletes only recorded files that are unmodified and leaves everything else; stopped anywhere it keeps the inventory, finished it has deleted all of those and keeps on record exactly the modified ones. |
| `Installer.RerunRemove` | scripts/lib/milan-stack-files.py:252-266 | Wherever a removal was stopped, a rerun that finishes leaves exactly what one uninterrupted removal of the original inventory leaves. |
| `Installer.InstallThenRemove` | scripts/lib/milan-stack-files.py:222-266 | Installing on a clean target and removing again restores the file map exactly. |
| `Installer.Root.CheckTarget` | scripts/lib/milan-stack-files.py:185-198 | Decides exactly the target conditions of preflight. |
| `Installer.Root.InstallPayload` | scripts/lib/milan-stack-files.py:222-249 | The target map and metadata become the specified result, stopped or finished. |
| `Installer.Root.CopyFile` | scripts/lib/milan-stack-files.py:201-214 | Clears the destination, then writes content and mode step by step. |
| `Installer.Root.WriteInventoryFile` | scripts/lib/milan-stack-files.py:91-99 | The inventory is replaced by a rename, or not at all. |
| `Installer.Root.ReadInventory` | scripts/lib/milan-stack-files.py:102-115 | Returns the records of a sound inventory only. |
| `Installer.Root.Classify` | scripts/lib/milan-stack-files.py:143-154 | Splits the records into exactly the intact, changed and missing ones. |
| `Installer.Root.RemoveInstalled` | scripts/lib/milan-stack-files.py:252-266 | The target becomes the specified result, stopped or finished. |
| `Installer.Root.VerifyInstalled` | scripts/lib/milan-stack-files.py:269-279 | Decides exactly whether the installation verifies. |
| `SensorFrame.DecryptInverts` | drivers/goodix53x5/device/crypto.c:380-551 | In an established session the decoder returns exactly the even-length data that the matching encoder framed, whenever the enciphered blocks are whole, and advances the server counter by one. |
| `SensorFrame.LongFramesDecrypt` | drivers/goodix53x5/device/crypto.c:380-551 | In particular for every payload of at least 0x3A7+13*0x3F0 bytes. |
| `SensorFrame.CounterFollowsAuthenticity` | drivers/goodix53x5/device/crypto.c:471-551 | The counter moves, by one modulo 2^32, exactly when the digest matches, whatever state, CRC and lengths decide afterwards; returned data has even length and is 49 bytes shorter than its frame. |
| `SensorFrame.ReplayRejected` | drivers/goodix53x5/device/crypto.c:471-503 | Delivering an accepted frame again yields nothing and leaves the counter, provided its digest does not also fit the next counter. |
| `SensorFrame.UnwrapFailsUnaligned` | drivers/goodix53x5/device/crypto.c:426-469 | The 15-block split succeeds if and only if every enciphered block is a multiple of 16, and then preserves the length. |
| `SensorFrame.LongPayloadsAligned` | drivers/goodix53x5/device/crypto.c:426-469 | Payloads that reach the last block always satisfy that condition. |
| `SensorFrame.GeaTwice` | drivers/goodix53x5/device/crypto.c:240-292 | The key stream is its own inverse, odd tails included. |
| `SensorFrame.GeaDecrypt` | drivers/goodix53x5/device/crypto.c:240-292 | The register loop fills the buffer with the specified stream. |
| `SensorFrame.UnwrapBlocks` | drivers/goodix53x5/device/crypto.c:426-469 | The block loop over one output buffer computes the split. |
| `SensorFrame.OpenPayload` | drivers/goodix53x5/device/crypto.c:511-551 | Strip, CRC and unmasking compute the specified data or nothing. |
| `SensorFrame.Gtls.DecryptSensorData` | drivers/goodix53x5/device/crypto.c:380-551 | Advances the counter field and returns the data exactly as specified. |
| `SensorFrame.DeriveSessionKey` | drivers/goodix53x5/device/crypto.c:192-231 | Every byte of the key is the matching byte of P_hash (section 5 of RFC 5246), truncated to the length asked for. |
| `SensorFrame.CrcRead` | drivers/goodix53x5/device/crypto.c:120-127 | The device's byte order for the CRC is read back. |
| `Checksums.TableMatchesSerial` | drivers/goodix53x5/device/crypto.c:30-112 | The table-driven CRC32-MPEG2 equals the bit-serial one on every byte string, from the literal table. |
| `Checksums.CrcTableCorrect` | drivers/goodix53x5/device/crypto.c:30-95 | Each of the 256 table entries is the eight-shift contribution of its index. |
| `Checksums.DamageDetected` | drivers/goodix53x5/device/crypto.c:102-112 | Changing any one byte of any string changes its CRC. |
| `Checksums.ComputeCrc` | drivers/goodix53x5/device/crypto.c:102-112 | The driver's table loop returns the bit-serial CRC. |
| `Checksums.ComputeCrcSerially` | tools/milan-parity/milan_parity_validate.py:504-510 | The validator's bit loop returns the same CRC. |
| `Checksums.HashTableCorrect` | drivers/goodix53x5/device/calibration.c:202-235 | Each of the 256 OTP hash table entries equals the eight bit-serial steps of its index. |
| `Checksums.ComputeOtpHash` | drivers/goodix53x5/device/calibration.c:295-305 | The driver's table loop returns the complement of the bit-serial hash. |
| `Checksums.VerifyOtp` | drivers/goodix53x5/device/calibration.c:313-343 | The driver accepts exactly the valid OTPs, short ones refused. |
| `Checksums.VerifyOtpSerially` | scripts/goodix53x5-detect.c:333-345 | The probe's bit-serial check accepts exactly the same OTPs. |
| `Checksums.HashStep` | scripts/goodix53x5-detect.c:325-331 | The probe's step is the specified contribution of a byte. |
| `Gradient.ThresholdWindow` | drivers/goodix53x5/milan/core.c:1423-1478 | The incrementally maintained sum judges every pixel by its direct 15x15 reflect-101 window sum with multiplicities; the mask and the count of selected pixels follow. |
| `Gradient.MovingStep` | drivers/goodix53x5/milan/core.c:1455-1474 | Moving one row of the window changes the sum by exactly the leaving and entering pixels, without wrap-around. |
| `Gradient.SlideWindow` | drivers/goodix53x5/milan/core.c:1455-1474 | One column further in 32-bit arithmetic gives the next direct window sum. |
| `Gradient.FirstWindow` | drivers/goodix53x5/milan/core.c:1437-1447 | The first column's sum in 32-bit arithmetic is the direct one. |
| `Gradient.AverageFits` | drivers/goodix53x5/milan/core.c:1448-1455 | The reciprocal multiplication does not wrap and never exceeds the true mean. |
| `Gradient.ReflectIndex` | drivers/goodix53x5/milan/private.h:19-36 | For length >= 2 the loop ends, for every coordinate, on the triangle-wave index. |
| `Gradient.ReflectionIsUnique` | drivers/goodix53x5/milan/private.h:19-36 | Each coordinate reflects to exactly one index. |
| `Integral.Recentre` | drivers/goodix53x5/milan/core.c:2084-2174 | Both integral images together give every masked pixel the re-centred value built from the rounded mean of the masked samples in its clamped 11x11 window. |
| `Integral.FillTable` | drivers/goodix53x5/milan/core.c:2109-2133 | Each table entry is the sum of its upper-left rectangle, with no 32-bit overflow at sensor size. |
| `Integral.LookUp` | drivers/goodix53x5/milan/core.c:2135-2168 | Four table entries give the clamped window's sum, at the borders too. |
| `Integral.LookUpIsWindow` | drivers/goodix53x5/milan/core.c:2135-2168 | The wrapped differences of four entries are the exact window sum. |
| `Integral.FourCorners` | drivers/goodix53x5/milan/core.c:2135-2168 | Inclusion and exclusion of four corners. |
| `Integral.RoundedIsNearest` | drivers/goodix53x5/milan/core.c:2146-2174 | The rounded mean is within half a unit of the true one. |
| `Integral.MaskedPixelsHaveMeans` | drivers/goodix53x5/milan/core.c:2146-2174 | A masked pixel's window holds at least itself, so its mean exists. |
| `Gains.MapsStayBounded` | drivers/goodix53x5/milan/core.c:956-1021 | From reset, over any sequence of updates and nested post-render ones, both auxiliary maps stay within 8192 +/- 327, the auxiliary count within 30 and the sample count within 400. |
| `Gains.CalibrationBetween` | drivers/goodix53x5/milan/core.c:810-865 | An accepted update leaves a calibration pixel between its old value and the candidate; a rejected one leaves it alone. |
| `Gains.CastsAreExact` | drivers/goodix53x5/milan/core.c:835-919 | Over every sequence of updates, the next running mean of any pixel of both auxiliary maps and of the calibration map, at its own or the borrowed sample count, loses nothing to its 32-bit sum or its 16-bit cast. |
| `Gains.AveragedBetween` | drivers/goodix53x5/milan/core.c:835-844 | The rounded running mean lies between the value and the candidate. |
| `Gains.UpdateAuxiliary` | drivers/goodix53x5/milan/core.c:889-919 | The in-place loop computes the specified map. |
| `Gains.GainState.InitializeGains` | drivers/goodix53x5/milan/core.c:130-178 | The maps and counters become the specified initial state. |
| `Gains.GainState.UpdateCalibrationMap` | drivers/goodix53x5/milan/core.c:810-865 | Calibration and application map and the sample count become as specified. |
| `Gains.GainState.UpdateGains` | drivers/goodix53x5/milan/core.c:956-1021 | One update with its gates. |
| `Gains.GainState.PostRender` | drivers/goodix53x5/milan/core.c:2980-3007 | The nested update with its borrowed sample count restores the count. |
| `Metadata.UnionOfMasks` | drivers/goodix53x5/milan/core.c:2454-2543 | A first pass in mode 1-4 and a second in mode >= 5, on an image without a preamble, leave the least significant bit 0 below row 0 exactly on the union of both masks. |
| `Metadata.MasksUnite` | drivers/goodix53x5/milan/core.c:2454-2543 | The same with the exact extra condition for images that do carry a preamble and a marker. |
| `Metadata.BothModesReadable` | drivers/goodix53x5/milan/core.c:2454-2543 | After two passes both modes can be decoded. |
| `Metadata.OnlyLowBits` | drivers/goodix53x5/milan/core.c:2454-2543 | A pass changes nothing but least significant bits. |
| `Metadata.PreambleLeft` | drivers/goodix53x5/milan/core.c:2454-2543 | Every writing pass leaves a preamble for the next. |
| `Metadata.NarrowImagesKeepStrayBits` | drivers/goodix53x5/milan/core.c:2466-2500 | The condition on the preamble is needed: of eight columns every image passes for one with a preamble, and a concrete one keeps a stray bit. (Both callers, at lines 390 and 402, pass the sensor dimensions, so no such image occurs.) |
| `Metadata.EncodeMetadata` | drivers/goodix53x5/milan/core.c:2454-2543 | The three in-place passes compute the specified image. |
| `Chronology.PreludeIsExact` | tools/milan-parity/milan_parity_validate.py:656-685 | Once all records of a dump are validated and their chronology is accepted, in whatever order they are then looked at, rebuilding the replay history of any of them never fails: it is exactly the earlier committed frames of its session, generation and setup, in chronological order. |
| `Chronology.ValidatedLive` | tools/milan-parity/milan_parity_validate.py:185-229 | Validation refuses a record without a sound live artifact, so every validated record has one. |
| `Chronology.SelectionOrder` | tools/milan-parity/milan_parity_validate.py:818-827 | Selecting from the same records in another order and sorting gives the same list, whenever no two selected ones share a number. |
| `Chronology.ValidateRecords` | tools/milan-parity/milan_parity_validate.py:818-822 | The list over all record files holds exactly the validated records, or the first failure ends it. |
| `Chronology.CheckChronology` | tools/milan-parity/milan_parity_validate.py:567-597 | Decides exactly the acceptance of the records, session by session. |
| `Chronology.CheckSession` | tools/milan-parity/milan_parity_validate.py:573-597 | The loop over maps decides the numbering, epochs, setups and use counts of one sorted session. |
| `Chronology.GroupBySession` | tools/milan-parity/milan_parity_validate.py:568-572 | Grouping keeps every record, in order, under its session. |
| `Chronology.BuildPrelude` | tools/milan-parity/milan_parity_validate.py:656-685 | The loop computes the specified outcome. |
| `Chronology.FilterSort` | tools/milan-parity/milan_parity_validate.py:656-670 | Selecting and stably sorting commute. |
| `Dac.ControlledIff` | drivers/goodix53x5/device/calibration.c:141-199 | For a nine-bit default D, as lines 388 to 393 derive it, any temperature calibration the OTP can give and a start at D, every sequence of twelve-bit means, each with the step it asks for, and of hardware reconstructions, which seed D again and leave the streaks, keeps the DAC in [D-5, D+30], both streaks at most 3 and never both 3, and active only with (3,0) or (0,3), if and only if 5 <= D <= 481; the same holds for readings with any steps. |
| `Dac.NeverWhole` | drivers/goodix53x5/device/calibration.c:108-116 | On twelve-bit means the quotient behind a step is never a whole number but zero, so its rounding does not move the step. |
| `Dac.SmallSteps` | drivers/goodix53x5/device/calibration.c:108-119 | Just below 2000 the step is one for every temperature calibration but the smallest. |
| `Dac.AdjustControlled` | drivers/goodix53x5/device/calibration.c:141-199 | One reading keeps that invariant. |
| `Dac.StepAims` | drivers/goodix53x5/device/calibration.c:101-139 | Through 16-bit wrap-around and the field mask a step sets the DAC to its clamped aim modulo 512. |
| `Dac.CorrectionAlternates` | drivers/goodix53x5/device/calibration.c:127-136 | Just above the floor the correction alternates between D-4 and D-5 for as long as readings stay low. |
| `Dac.FloorEscapes` | drivers/goodix53x5/device/calibration.c:127-139 | For D < 5 and every temperature calibration a run of twelve-bit means with the steps they ask for takes the DAC out of its range. |
| `Dac.CeilingEscapes` | drivers/goodix53x5/device/calibration.c:121-139 | For D from 482 up and every temperature calibration a run of bright twelve-bit means with the steps they ask for takes the DAC out of its range. |
| `Dac.Controller.Reconstruct` | drivers/goodix53x5/device/session.c:979-983 | A reconstruction changes the DAC only: back to the default. |
| `Dac.Controller.AdjustDac` | drivers/goodix53x5/device/calibration.c:141-199 | From a mean, or none, the step is chosen and the state fields and the DAC become as specified. |
| `Dac.Controller.Streak` | drivers/goodix53x5/device/calibration.c:151-170 | The streak bookkeeping, and whether it asks for a step. |
| `Persistence.SaveRestore` | drivers/goodix53x5/device/persistence.c:726-806 | Any state that passes the save checks gives a file that is accepted for its device and restores sample count, calibration map, counters, class planes and ages; the classification ring becomes the saved ring and the reference its half-resolution rendering. |
| `Persistence.OtherDeviceRefused` | drivers/goodix53x5/device/persistence.c:492-544 | That file is accepted for exactly the device it was saved for. |
| `Persistence.ValidStatesAreSaveable` | drivers/goodix53x5/device/persistence.c:627-659 | Every accepted file restores to a state that passes the save checks, and saving that reproduces every byte before the reference. |
| `Persistence.DefaultsAreFresh` | drivers/goodix53x5/device/persistence.c:669-684 | The default file is the save of a fresh state, so it is accepted too. |
| `Persistence.PathsDiffer` | drivers/goodix53x5/device/persistence.c:228-242 | Two identities share a file name if and only if they are equal. |
| `CoarseReference.ShiftIsFloor` | drivers/goodix53x5/device/persistence.c:128-138 | The hand-written shift, with its bitwise or, is floor division by the power of two, for every 32-bit value. |
| `CoarseReference.JoinedIsSum` | drivers/goodix53x5/device/persistence.c:129-138 | The shifted bits and the ones shifted in from the left have no place in common: their bitwise or is their sum. |
| `CoarseReference.MeanExact` | drivers/goodix53x5/device/persistence.c:166-180 | The unsigned 32-bit weighted sum of signed words is the exact weighted mean, within the bounds of its operands. |
| `CoarseReference.RestoredBetween` | drivers/goodix53x5/device/persistence.c:140-193 | Every restored pixel lies between the coarse samples around it, so the narrowing casts lose nothing. |
| `CoarseReference.EvenPixelsExact` | drivers/goodix53x5/device/persistence.c:148-192 | At even coordinates off the last coarse row and column the packed sample comes back exactly. |
| `CoarseReference.LastRowAverages` | drivers/goodix53x5/device/persistence.c:182-189 | Along the last coarse row an even pixel is the truncated mean of two samples instead. |
| `CoarseReference.StoredBetween` | drivers/goodix53x5/device/persistence.c:195-214 | A stored sample is the floor mean of its block, between its four pixels. |
| `CoarseReference.SavedReferenceBounded` | drivers/goodix53x5/device/persistence.c:140-214 | A save and a restore keep a reference within whatever bounds it had; a flat one comes back exactly. |
| `CoarseReference.RestoreReference` | drivers/goodix53x5/device/persistence.c:140-193 | The nested loops compute the specified plane. |
| `PersistenceDriver.Save` | drivers/goodix53x5/device/persistence.c:726-782 | Refuses exactly the states that fail the checks, else fills the specified contents at their offsets. |
| `PersistenceDriver.CheckState` | drivers/goodix53x5/device/persistence.c:492-544 | The checks and plane loops decide exactly validity. |
| `PersistenceDriver.Defaults` | drivers/goodix53x5/device/persistence.c:669-683 | Builds the file of a fresh state. |
| `PersistenceDriver.PutReference` | drivers/goodix53x5/device/persistence.c:195-214 | The block loops pack the specified samples. |
| `PersistenceDriver.PutHeader` | drivers/goodix53x5/device/persistence.c:244-270 | The header fields land at their offsets. |
| `PersistenceDriver.Generation.Restore` | drivers/goodix53x5/device/persistence.c:585-684 | A valid file is decoded into the state and retained; otherwise the state is untouched and a valid default file is retained. |
| `PersistenceDriver.Directory.StateWrite` | drivers/goodix53x5/device/persistence.c:416-490 | Whatever the system calls answer and wherever the process stops, apart from the temporary every state of the directory is the old one or has the state file complete; reported success means exactly that replacement. |
| `Esd.RepairEnds` | drivers/goodix53x5/device/commands.c:449-579 | Given its completions a repair ends after at most ten reset cycles and 34 commands, whatever they return. |
| `Esd.BoundReached` | drivers/goodix53x5/device/commands.c:449-579 | The bound of 34 is exact: some repair still waits after 33. |
| `Identification.RestoreNeedsMatch` | drivers/goodix53x5/device/commands.c:469-514 | After an open that identified its chip, whatever was answered to it, every run of every repair restores the configuration exactly when that very chip id has just been read successfully. |
| `Identification.IdentificationEnds` | drivers/goodix53x5/device/session.c:504-611 | Whatever the device answers, identification is over after twenty events and six failed read cycles, and an accepted id lies in 0x220c00..0x220cff. |
| `Identification.Identifier.ChipResult` | drivers/goodix53x5/device/session.c:504-579 | State, failure count and the session's chip id become as specified by each result. |
| `Identification.Identifier.DelayOver` | drivers/goodix53x5/device/session.c:581-610 | After a delay the chip is read again, or six failures end the search. |
| `Esd.RestoresOnlyOnMatch` | drivers/goodix53x5/device/commands.c:469-529 | Of the machine in isolation, for any id: over all runs the configuration is restored exactly on the successful reads of that id, if and only if it is nonzero or the notice was masked. (The open accepts no zero id.) |
| `Esd.CompletedHow` | drivers/goodix53x5/device/commands.c:449-579 | A repair completes only after a restore or after the last reset of ten failed cycles. |
| `Esd.ArmSettles` | drivers/goodix53x5/device/commands.c:354-395 | An arm takes at most three commands, and completes exactly when its first one ends well and, if that one asked for the configuration, the configuration is sent uncancelled and the repeated command ends well too. |
| `Esd.Operation.EsdResult` | drivers/goodix53x5/device/commands.c:469-529 | Attempts, chip and state become as specified. |
| `Esd.Operation.ArmResult` | drivers/goodix53x5/device/commands.c:354-395 | The arm's state becomes as specified. |
| `Esd.Operation.Jump` | drivers/goodix53x5/device/commands.c:531-578 | Entering a state runs its handler; entering the reset counts an attempt. |
| `Esd.Operation.Deliver` | drivers/goodix53x5/device/commands.c:449-579 | One completion moves the machine by one specified step. |

## Left out

- USB submission, GLib timers and the main loop, and the internals of libfprint's
  state machines: only their callback contracts appear; time is an arbitrary expiry.
- libfprint's own rules are assumptions of the ownership model: one action at a
  time, no close beside a power transition, and an error answer that does not
  re-enter the driver.
- OwnershipDriver.Driver.Deliver: nested calls into libfprint's state machine and
  back are a stack of pending callbacks; session, action, transport and device are
  records of the device object, only the coordinators are objects of their own.
- OwnershipSafety.NoLostWakeup: says who is still to report, not that the sensor
  or the USB stack eventually does.
- Acquisition steps inside a base sequence: only their outcome enters the
  ownership model; base.c lines 666 to 850 (the order of its commands) are not modelled.
- GTLS handshake messages and their retry counts; the open sequence, of which only
  the chip identification is modelled.
- The capture machine's own frame handling (scan.c lines 1215 to 1400) appears as
  one operation with its ordinary, failed and successful ends.
- TransportSafety.DataEndsCommand: whether a cached reply view fits is an arbitrary
  flag of the batch; the parsers of individual replies are not modelled.
- BaseGeneration.UsesAreConsecutive: the use counter exists in debug builds only;
  the engine's flags on a generation are arbitrary.
- Installer.StoppedInstall: directories, ownership, permissions, SELinux labels,
  package queries, symbolic-link aliasing and the order of inventory lines are not
  modelled; paths are distinct keys of a map.
- SensorFrame.DecryptInverts: AES-CBC and HMAC are functions about which only
  decrypt(encrypt(x)) = x and the lengths are assumed; the encoder is the sensor's
  side, which the repository does not contain.
- SensorFrame.ReplayRejected: needs, as stated, that the digests of two successive
  counters differ.
- Identity derivation, session setup and key installation (crypto.c lines 300 to 378).
- Identification.IdentificationEnds: lengths of delays, and the reasons given with a
  failure, are not modelled.
- Gains.MapsStayBounded: the filtered planes, the ratio plane and the coarse-reference
  gate enter as arbitrary inputs; health.c and every floating-point gate are not modelled.
- Gradient.ThresholdWindow: starts from the gradient plane; the Sobel pass before it
  is not modelled. Integral.Recentre stops before the smoothing that follows.
- Dac.ControlledIff: how a frame comes to its mean is not modelled; the quotient
  behind a step is exact, where the code computes it in binary floating point.
- The configuration patch and its checksum, and the derivation of finger-detection
  bases (calibration.c lines 416 to 560): they would add easy members only.
- Esd.RepairEnds: delays between steps and the flag that asks for reinitialization
  after interrupted writes are not modelled.
- Persistence.SaveRestore: SHA-256 is an arbitrary function to 32 bytes; state fields
  the file does not touch, allocation failure and file ownership checks are left out.
- PersistenceDriver.Directory.StateWrite: starts with the directory open; creating
  the directory and what a crash does to unsynced data are not modelled.
- Probe.ReceiveMessage: the reads are given as a list; the USB device and the
  tool's other commands are not modelled.
- Chronology.CheckChronology: records are taken after parsing; of their validation
  the artifacts are modelled and every other check is one arbitrary flag; the profile
  seed and the native runner are not modelled.
- The matcher, study, template codec, mask classifier and renderer of the engine:
  large, and mostly without the invariants this project is about.
- Debug dumps, logging, reports and command-line handling.
