# Gate node: verified models of its control logic

Dafny models of the firmware of a gate node, with proofs about every interleaving of its parties.
`dafny verify dfyconfig.toml` checks everything.

**Linear-actuator lock** (`LockDrive`, `LockModel`, `LockRamp`, `LockTermination`, `LockSpin`,
`LockHistory`, `LockRequests`, `LinearLock`). Callers and a one-shot timer feed one command queue; a worker
turns each command into a step of a speed ramp. Queued timer entries look like requests, so termination, the
final position and the exclusion of the two PWM channels depend on every interleaving. The timer callback is
two steps, as in the code: it reads the current command, and later queues what it read. Three schedules say
when the timer may fire: *free* (any time), *prompt* (only on an empty queue, except during the hold) and
*strict* (only on an empty queue). Safety is proved under every schedule. Termination is governed by one
number, the reversals taken while the timer is not armed: `LengthOfAnyRun` bounds every run from both sides
by it, it is zero under the prompt schedule, and it grows without end in the spin that the free schedule
allows; `ComesToRestIffCannotSpin` decides in the state in which the lock is left alone whether that can
happen. The last command queued always wins; it is the last request under the strict schedule. Under the
prompt one an open request always wins, and `LastRequestDecided` says in the state in which a close request
is accepted whether a stale timer entry can undo it.

**Firmware upload** (`PipelineModel`, `PipelineOwnership`, `PipelineRefinement`, `PipelineFlow`,
`PipelineProgress`, `PipelineUpload`, `PipelineDelivery`, `UploadDevice`). An upload handler, an event loop
and an update worker pass three 1 KB buffers around by address. The device is proved to have the same runs
as a machine that passes payloads by value, because each buffer is always in exactly one place. On that
machine the bytes in flash are traced back to the bytes received. An upload whose completion restarts the
device, and of which no chunk was dropped before the worker took its start, has installed whatever image
was being written at that moment, followed by exactly its own bytes: itself, if and only if no image was
being written. Both exits of the receive loop keep a buffer, so a boot has room for three uploads; what a
waiting upload can still hope for is stated as an equivalence.

**Update service** (`Versions`, `OtaModel`, `OtaSafety`, `OtaInstall`, `OtaImage`, `OtaOutcome`,
`VersionChain`, `OtaService`). The two-state worker and its flash calls, over every sequence of messages and
platform answers: what a restart has installed, and exactly when an upload restarts the device. When the
description of the running image cannot be read, the code compares versions with whatever the stack holds;
whether versions still increase is stated as an equivalence.

**Login sessions** (`SessionModel`, `SessionHistory`, `SessionTable`). A slot table with 32-bit time
stamps, against the sessions that a history of requests leaves, first as measured and then in true time.
An expired session keeps its slot until its own token is presented again.

**Boot scan** (`BootScan`). The channel scan that discovery, its completion event and a delegated job
carry on in turn.

Each part has step functions on a value that is the whole state, lemmas about all runs of them, and a
class that updates the state in place, whose methods are proved to be those step functions. Queues are
bounded sequences; a call that would block is a step that is not enabled.

Where comments and code differ, the models follow the code:

- `components/linear-actuator-lock/linear_actuator.c:227` says duplicate commands are ignored; the code
  advances the ramp (lines 267-269 and 318-320).
- `components/linear-actuator-lock/linear_actuator.c:13` speaks of a peak of 50%; the ramp reaches 60.
- `components/linear-actuator-lock/linear_actuator.c:334` holds at low speed; the hold sleeps before the
  low speed is applied, so the channel still has the duty of the step before.
- `components/http-server/http_server.c:362` expects the first buffer always to be there; after three
  ended uploads it never is.

An upload that fails is logged at `main/routine_event_handler.c:217-221` and reported to nobody, so the
update worker appends the next upload to it (`BrokenUploadIsInstalled`).

Assumptions about the platform: a flash call on a handle that is not open fails; ending or aborting an
open handle closes it whatever the result, as the ESP-IDF documentation of `esp_ota_end` says; the
offsets of the version field are those of the ESP-IDF application image format, and an application
description has a zero byte somewhere from its version on, so that `strcmp` stays inside it; the event
loop is a first-in first-out queue that copies event data; `wifi_set_channel` succeeds; tokens are fresh.

## Model

| member | source | states |
|---|---|---|
| LockDrive.DutyIsMonotone | components/linear-actuator-lock/priv_src/lock_drive.c:28-36 | Scaling a speed keeps the order of speeds, stays within 13 bits, and gives duty 0 only for speed 0 |
| LockDrive.DutyIsPercentage | components/linear-actuator-lock/priv_src/lock_drive.c:28-36 | The duty is the percentage of 8191 rounded down, and 8191 for every speed over 100 |
| LockDrive.MotorDriver.Idle | components/linear-actuator-lock/priv_src/lock_drive.c:38-43 | Both channels are off afterwards |
| LockDrive.MotorDriver.Drive | components/linear-actuator-lock/priv_src/lock_drive.c:47-69 | One channel gets the duty of the speed; the other one is not touched |
| LockModel.RunKeepsInv | components/linear-actuator-lock/linear_actuator.c:234-404 | Every run of requests, timer and worker keeps: queue bounded, command and direction match the status, (speed, increment) on the ramp with the exact duty of both channels, hold only at speed 10 while opening |
| LockModel.ChannelsExclude | components/linear-actuator-lock/linear_actuator.c:247-390 | Under every schedule: forward and reverse are never both driven, OPENED and CLOSED drive nothing, the channel against the direction of travel is off while moving |
| LockModel.RampNeverWraps | components/linear-actuator-lock/linear_actuator.c:269-284 | Under every schedule: moving states lie on the opening or closing chain, adding the increment to the `uint8_t` speed never wraps, no duty exceeds that of speed 60 |
| LockModel.QuiescenceIsAtRest | components/linear-actuator-lock/linear_actuator.c:318-342 | No stranded motion: a moving lock always has a queued command, an armed timer, a callback under way or a hold; a quiescent one is fully opened or closed with both channels off |
| LockRamp.CommandMovesOn | components/linear-actuator-lock/linear_actuator.c:267-342 | From every stage of either ramp a command in the direction of travel leads to the next one, with its duty (20, 40, 60, 40, 20 closing; 20, 40, 60, 50, 40, 30, 20, 10 opening); to the hold before the last stage of an opening; to rest, both channels off, after the last stage and not before |
| LockRamp.HoldEndsAtLastStage | components/linear-actuator-lock/linear_actuator.c:333-342 | After the hold the last stage of an opening is driven, with duty 819, and the timer armed |
| LockRamp.CommandTurnsAround | components/linear-actuator-lock/linear_actuator.c:247-265 | A command at rest drives the first stage of its direction, even where the lock already is; one against the direction of travel stops both channels and goes to the first stage of the other ramp without driving it |
| LockRamp.CompletedMovementWentThrough | components/linear-actuator-lock/linear_actuator.c:269-342 | Under every schedule a movement that comes to rest has been at every stage of its ramp, in order and once each, since it was entered |
| LockRamp.TenRequestsFit | components/linear-actuator-lock/linear_actuator.c:139-164 | While the worker is busy exactly as many requests are accepted as places are free among ten, in the order made |
| LockTermination.StepLowersPotential | components/linear-actuator-lock/linear_actuator.c:178-184 | A potential falls with every step except a request and a reversal taken while the timer is not armed, which raise it by at most 44 |
| LockTermination.LengthOfAnyRun | components/linear-actuator-lock/linear_actuator.c:234-404 | Under any schedule: requests + stale reversals <= length of a run <= potential + 45 * (requests + stale reversals), so runs with finitely many requests are bounded exactly when their stale reversals are |
| LockTermination.PromptStep | components/linear-actuator-lock/linear_actuator.c:178-184 | The prompt schedule keeps the spent timer's command next in line, so it has no stale reversal |
| LockTermination.PromptRunsTerminate | components/linear-actuator-lock/linear_actuator.c:234-404 | With n requests every run of the prompt schedule has at most 40 + 45 n steps |
| LockTermination.SomeStepIsAllowed | components/linear-actuator-lock/linear_actuator.c:239-239 | No schedule gets stuck before quiescence |
| LockTermination.ComesToRest | components/linear-actuator-lock/linear_actuator.c:275-281 | From every state the prompt or strict schedule reaches, the lock's own steps bring it to rest, opened or closed |
| LockTermination.SpinIsReachable | components/linear-actuator-lock/linear_actuator.c:249-265 | Two requests bring a booted lock into a state that turns around forever under the free schedule |
| LockTermination.FreeScheduleSpins | components/linear-actuator-lock/linear_actuator.c:300-316 | From that state, with no further request, the free schedule has runs of every length that reverse twice a lap, return to it, and never drive a channel |
| LockSpin.ComesToRestIffCannotSpin | components/linear-actuator-lock/linear_actuator.c:178-184 | Without further requests the free runs from a state are bounded if and only if `CanSpin` fails there, then by the potential plus 45: an open and a close command are on their way (queued, in the callback, or about to be read by the timer) and stay so when the timer can save the current one, or else when the next command has been taken |
| LockHistory.CompletedOpeningHeldOnce | components/linear-actuator-lock/linear_actuator.c:326-337 | Under every schedule, an opening that completes has held exactly once, at speed 10, since it was entered |
| LockHistory.TimerNeverReverses | components/linear-actuator-lock/linear_actuator.c:178-184 | Under the strict schedule a timer entry repeats the current command when taken, and the current command is the last request taken |
| LockHistory.LastRequestWins | components/linear-actuator-lock/linear_actuator.c:139-164 | Under the strict schedule a lock at rest is opened or closed as the last request of an arbitrary history asked; closed if there was none |
| LockHistory.LastQueuedWins | components/linear-actuator-lock/linear_actuator.c:178-184 | Under every schedule a lock at rest has obeyed the command queued last, by a caller or by the timer |
| LockRequests.LastRequestDecided | components/linear-actuator-lock/linear_actuator.c:326-341 | Last request under the prompt schedule, in any state it reaches: an open request always wins; a close request can lose if and only if taking the queued commands in order comes to a hold with the timer armed while the request still waits, and otherwise always wins |
| LockHistory.PromptScheduleLosesLastRequest | components/linear-actuator-lock/linear_actuator.c:333-341 | A prompt run in which a timer entry queued during the hold undoes the last request: last asked to close, at rest opened |
| LinearLock.DrainedIsARun | components/linear-actuator-lock/linear_actuator.c:237-239 | What the worker's loop does before it blocks is a run of loop iterations, as many as the queue got shorter, and no further one is possible |
| LinearLock.LinearLock.constructor | components/linear-actuator-lock/linear_actuator.c:95-112 | The zero-initialised lock |
| LinearLock.LinearLock.SetMotorOpen | components/linear-actuator-lock/linear_actuator.c:139-147 | Queues an open command unless the queue is full, where the code blocks |
| LinearLock.LinearLock.SetMotorClose | components/linear-actuator-lock/linear_actuator.c:158-164 | Queues a close command unless the queue is full, where the code blocks |
| LinearLock.LinearLock.TimerFires | components/linear-actuator-lock/linear_actuator.c:178-182 | The callback reads the current command; the one-shot timer is disarmed |
| LinearLock.LinearLock.TimerDelivers | components/linear-actuator-lock/linear_actuator.c:183-183 | The command read, not the current one, is queued |
| LinearLock.LinearLock.TakeCommand | components/linear-actuator-lock/linear_actuator.c:239-402 | One loop iteration, up to the hold, is the step function on the whole state |
| LinearLock.LinearLock.StartMoving | components/linear-actuator-lock/linear_actuator.c:356-390 | Starts a ramp from rest |
| LinearLock.LinearLock.ContinueClosing | components/linear-actuator-lock/linear_actuator.c:267-286 | One closing ramp step |
| LinearLock.LinearLock.ContinueOpening | components/linear-actuator-lock/linear_actuator.c:318-342 | One opening ramp step, or the start of the hold |
| LinearLock.LinearLock.EndHold | components/linear-actuator-lock/linear_actuator.c:336-342 | The low speed is applied only after the hold |
| LinearLock.LinearLock.RunUntilBlocked | components/linear-actuator-lock/linear_actuator.c:237-239 | The loop refines the drained-state function |
| Versions.NewerIsStrictTotalOrder | components/ota-service/ota_service.c:141-152 | `strcmp(new, running) > 0` is a strict total order on version strings |
| Versions.NewerIsLexicographic | components/ota-service/ota_service.c:141-152 | `strcmp(new, running) > 0` is the lexicographic order: at the first difference the new version has the larger byte, or goes on where the other ends |
| Versions.VersionIsInFirstPacket | components/ota-service/ota_service.c:203-206 | A packet longer than headers and description settles the version, read as `strcmp` reads it, of any image that starts with it |
| Versions.VersionsOfImages | components/ota-service/ota_service.c:203-206 | Images carry exactly the versions without a zero byte that fit the description |
| Versions.VersionLayout | components/ota-service/ota_service.c:203-206 | The version stands 48 bytes into an image, up to the first zero byte, and is read only from at least 288 bytes |
| OtaSafety.MessageKeepsInv | components/ota-service/ota_service.c:186-297 | Every message with every platform answer keeps: flash calls in protocol order, headers accepted, handle, flags and length in step with the log |
| OtaSafety.AtMostOneAttempt | components/ota-service/ota_service.c:224-226 | A log in protocol order begins an update at most once and sets the boot partition at most once |
| OtaSafety.SwitchIsEarned | components/ota-service/ota_service.c:265-278 | A set-boot call directly follows a successful end, and that an unbroken stretch of successful writes after the one successful begin |
| OtaSafety.OneAttemptPerBoot | components/ota-service/ota_service.c:183-303 | Over any messages and answers of one boot: at most one begin, for a newer and not last-invalid version, and at most one set-boot call |
| OtaSafety.RestartIsEarned | components/ota-service/ota_service.c:265-286 | A boot that restarts has switched to exactly the joined writes of its one attempt, whose version is the accepted one |
| OtaSafety.FailedAttemptIsFinal | components/ota-service/ota_service.c:224-261 | Once the single attempt has failed, no later message of the boot writes, switches or restarts: every further flash call is refused |
| VersionChain.RestartUpgrades | components/ota-service/ota_service.c:203-222 | A boot that restarts runs a strictly newer version afterwards, if whenever the header check asked, the running description was read or what stood in its place was not older than the running version |
| VersionChain.VersionIsInstalled | components/ota-service/ota_service.c:209-217 | Every version newer than what the header check is told can be installed, be it older than the running one or the running one itself |
| VersionChain.UpgradesIffTrusted | components/ota-service/ota_service.c:209-217 | Whatever is uploaded, every restart runs a newer version: if and only if the running description is read, or what stands in its place is not older than the running version |
| VersionChain.VersionsIncrease | components/ota-service/ota_service.c:141-152 | Over any number of boots, each trusted as above against the version then running, installed versions strictly increase, so none is installed twice |
| VersionChain.IncreasesIffRead | components/ota-service/ota_service.c:209-217 | Over every series of boots that answer alike, installed versions increase: if and only if the description is read, or what stands in its place is such that no image is accepted at all |
| OtaInstall.UploadIsInstalled | components/ota-service/ota_service.c:198-286 | Without failures, in every state in which no header was accepted yet, active ones included, an upload whose first packet passes the header check is installed byte for byte, together with every packet of uploads started before it completes |
| OtaInstall.BrokenUploadIsContinued | components/ota-service/ota_service.c:198-261 | At the worker: an upload without a complete message is continued by the next one; the installed image is the two joined and equals neither |
| OtaImage.ImageIsServedSuffix | components/ota-service/ota_service.c:198-261 | The image is exactly the packets served from the accepted header packet on; that packet directly follows a start message, and only the last message may be a complete message |
| OtaImage.AttemptInstallsUpload | components/ota-service/ota_service.c:186-286 | In whatever state an upload finds the service, and whatever the platform answers: if its completion restarts the device, the image is what was being written when it started, followed by exactly that upload |
| OtaOutcome.ActiveExactly | components/ota-service/ota_service.c:186-297 | A start message activates the service if there is a partition and changes nothing in an active one; a packet keeps it active exactly if an image is open afterwards; a completion without restart leaves it idle |
| OtaOutcome.PacketDecides | components/ota-service/ota_service.c:200-261 | The first packet opens an image exactly if its header is accepted, begin and write succeed; a later one keeps it open exactly if it is written; an accepted header is the one attempt of the boot even if begin fails, with what it was compared against in the log |
| OtaOutcome.FailureIsSilent | components/ota-service/ota_service.c:224-284 | After any refusal or failure the service is idle and does nothing at all until the next start message |
| OtaOutcome.UploadRestartsIff | components/ota-service/ota_service.c:186-297 | In every state and with every answer: an upload restarts the device if and only if all its flash calls succeed and an image was being written already, or no header was accepted before, there is a partition and its first packet passes the header check; otherwise the service is idle afterwards |
| OtaOutcome.OneChancePerBoot | components/ota-service/ota_service.c:222-232 | Once a header was accepted and no image is open any more, no upload of this boot restarts the device |
| OtaService.OtaService.constructor | components/ota-service/ota_service.c:49-59 | The zero-initialised service |
| OtaService.OtaService.HandleMessage | components/ota-service/ota_service.c:183-297 | One loop iteration of the update worker is the step function on the whole state |
| OtaService.OtaService.HandlePacket | components/ota-service/ota_service.c:200-261 | Header check, begin and write, with every early exit |
| OtaService.OtaService.HandleCompletion | components/ota-service/ota_service.c:263-287 | End, set boot partition, restart, with every early exit |
| OtaService.OtaService.ServeAll | components/ota-service/ota_service.c:183-183 | The worker's loop is the fold of its messages, ended by a restart |
| PipelineOwnership.StepConserves | components/http-server/http_server.c:95-115 | Every step conserves every weighing of the buffers over the places they can be in |
| PipelineOwnership.FilledBufferIsExclusive | components/http-server/http_server.c:379-400 | While the upload handler fills a buffer, no queued message, event or worker refers to it |
| PipelineOwnership.BuffersAreConserved | components/http-server/http_server.c:368-393 | In every run each buffer is in exactly one place, and live + kept + dropped buffers are three |
| PipelineOwnership.PoolIsFifo | components/http-server/http_server.c:95-115 | In every run the buffers handed to the upload handler, followed by those in the pool, are 0, 1, 2 followed by those handed back, in order |
| PipelineOwnership.PayloadOverwrites | components/http-server/http_server.c:379-379 | A received payload stands at the front of the buffer, and the rest of it is as it was |
| PipelineRefinement.ReceiveRefines | components/http-server/http_server.c:379-400 | Receiving into a reused buffer changes no payload that is still on its way |
| PipelineRefinement.StepRefines | components/ota-service/ota_service.c:198-301 | Every step of the device is the same step of a machine that passes payloads by value |
| PipelineRefinement.StepIsAvailable | components/http-server/http_server.c:349-418 | Every step of that machine can be taken by the device |
| PipelineRefinement.DeviceRefinesValues | main/routine_event_handler.c:201-225 | Device and value machine have the same runs and the same flash after each |
| PipelineFlow.StepKeepsLaw | main/routine_event_handler.c:207-225 | First-in first-out law: arrived = dispatched + events + in hand, accepted = served + in work + queued; only a full update queue leaves messages out, and each is counted |
| PipelineFlow.ServedInOrder | components/ota-service/ota_service.c:312-318 | In every interleaving what the worker's steps serve is a subsequence of what arrived, with the bytes received, a prefix of it if nothing was dropped, and all that the state of the update service comes from |
| PipelineFlow.FlashIsExact | components/ota-service/ota_service.c:198-261 | In every interleaving the bytes in flash since begin are exactly the payloads of the packets served from the header packet on |
| PipelineUpload.RestartInstallsWholeUploads | components/http-server/http_server.c:366-400 | If nothing was dropped, a restart has switched to everything that arrived from one start message to the first complete message after it; only packets arrived in between, so one upload, if and only if no receive error lies between those two steps |
| PipelineUpload.UploadInstallsItself | main/routine_event_handler.c:200-225 | In every interleaving, for an upload whose completion restarts the device, whatever other uploads lost: with none of its chunks dropped before its start message was dequeued, the image is what was being written at that moment followed by exactly the bytes this upload received, so it is this upload if and only if no image was being written; and if none was, it is this upload if and only if none of its chunks was dropped |
| PipelineDelivery.FileCanBeInstalled | components/http-server/http_server.c:349-418 | Every file whose first chunk passes the header check, in any number of chunks of at most 1024 bytes, has a run of the booted device that installs exactly its bytes, also after up to two uploads that broke off before their first byte |
| PipelineDelivery.BrokenUploadIsInstalled | main/routine_event_handler.c:217-221 | A run of the booted device in which an upload breaks off with a receive error after any number of chunks, its failed event is handled, and a second file is uploaded: the device installs the two joined, which is neither of them |
| PipelineDelivery.FourthUploadIsStuck | components/http-server/http_server.c:381-393 | A run of the booted device in which three uploads end and a fourth then waits for a buffer in every continuation: the bound of three is reached |
| PipelineDelivery.SlowWorkerDropsChunk | components/ota-service/ota_service.c:312-318 | Before the worker has dequeued the start message a chunk can be dropped: the third one of an upload |
| PipelineProgress.UploadsCostBuffers | components/http-server/http_server.c:381-393 | Live buffers + ended uploads + dropped chunks = 3, so at most three uploads end per boot; at most ten events ever wait |
| PipelineProgress.ReachableIsOnPath | main/routine_event_handler.c:112-233 | Every reachable state has the invariants of ownership, counts and message order |
| PipelineProgress.FullQueueHoldsControl | components/ota-service/ota_service.c:312-337 | A chunk or complete message that finds the update queue full finds a start or complete message in it |
| PipelineProgress.NoLossOnceStarted | main/routine_event_handler.c:207-225 | After the worker has dequeued an upload's start message, no chunk or complete message of that upload is dropped, in any continuation |
| PipelineProgress.PoolHasRoom | components/http-server/http_server.c:106-115 | Returning a buffer never finds the pool full, so the blocking send never blocks |
| PipelineProgress.NobodyBlocks | components/http-server/http_server.c:366-400 | Without a restart every task can go on in every state, the upload handler with any payload of 1 to 1024 bytes, except that an upload waits for a buffer while the pool is empty and the others for something to do |
| PipelineProgress.BackgroundWorks | components/ota-service/ota_service.c:297-301 | Every step of the event loop or the worker lowers the remaining work |
| PipelineProgress.BackgroundIsEnabled | main/routine_event_handler.c:117-122 | While work remains and no restart happened, such a step can be taken |
| PipelineProgress.WaitingEnds | components/http-server/http_server.c:95-103 | While an upload waits the others take at most `Work` steps, and then every buffer that is not lost is in the pool |
| PipelineProgress.LiveBufferReturns | components/http-server/http_server.c:95-103 | Once the waiting upload's start message has been dequeued and a buffer is left, every order in which the other tasks run out of work hands it a buffer without dropping anything, unless the device restarts |
| PipelineProgress.LiveBufferCanReturn | components/http-server/http_server.c:95-103 | If a buffer is left, the others can hand one to the waiting upload without dropping anything |
| PipelineProgress.NoBufferNoReturn | components/http-server/http_server.c:370-371 | If none is left, the upload waits for the rest of the boot, in every continuation |
| PipelineProgress.WaitingIsHopefulIff | components/http-server/http_server.c:370-371 | A waiting upload can still get a buffer if and only if one is left and no restart happened |
| UploadDevice.UploadDevice.constructor | components/http-server/http_server.c:623-633 | The pool is filled with every buffer, in order |
| UploadDevice.UploadDevice.BeginUpload | components/http-server/http_server.c:364-364 | The started event is posted before any buffer is acquired |
| UploadDevice.UploadDevice.GetChunkBuffer | components/http-server/http_server.c:95-103 | The oldest pool buffer goes to the handler |
| UploadDevice.UploadDevice.ReceiveChunk | components/http-server/http_server.c:379-400 | The payload overwrites the front of one buffer; the rest of it and the other buffers keep their bytes |
| UploadDevice.UploadDevice.EndReceiving | components/http-server/http_server.c:381-393 | Both exits of the loop keep their buffer |
| UploadDevice.UploadDevice.PostEvent | components/http-server/http_server.c:384-400 | The chunk, complete or failed event is posted |
| UploadDevice.UploadDevice.OtaServiceDataEvent | components/ota-service/ota_service.c:312-318 | The send succeeds exactly if fewer than three messages wait |
| UploadDevice.UploadDevice.HandleEvent | main/routine_event_handler.c:112-233 | One event, with the result of the send ignored and a failed upload forwarded to nobody |
| UploadDevice.UploadDevice.TakeMessage | components/ota-service/ota_service.c:183-183 | The oldest message goes to the worker |
| UploadDevice.UploadDevice.ReadChunk | components/ota-service/ota_service.c:205-206 | The bytes behind an address and length at that moment |
| UploadDevice.UploadDevice.ServeMessage | components/ota-service/ota_service.c:186-297 | The worker handles the bytes it finds in the buffer, and then still holds it |
| UploadDevice.UploadDevice.ReturnBuffer | components/ota-service/ota_service.c:299-301 | Every packet's buffer is handed back, whatever became of the packet |
| SessionModel.GapIsTrueModuloWrap | components/http-server/http_server.c:147-148 | The wrapped 32-bit difference is the true gap modulo 2^32 ms; the limit is judged rightly exactly unless a gap of at least 2^32 ms wraps to within it |
| SessionHistory.LongIdleSessionIsAccepted | components/http-server/http_server.c:147-148 | After a history of one login, a token idle for 2^32 + 4 ms is accepted again |
| SessionHistory.TableFollowsHistory | components/http-server/http_server.c:133-160 | After any history the active slots are exactly the sessions that the history leaves, stamped with their last use: a login adds one if there are fewer than N, a use in time refreshes it, a late use removes it, a logout in time removes all, and an unused one stays |
| SessionHistory.HeldIffLives | components/http-server/http_server.c:133-160 | A session is left exactly if its login found room, no logout in time came since, and every use of it was in time after the one before, by either clock |
| SessionHistory.AcceptedIffAlive | components/http-server/http_server.c:133-160 | For N slots and any history with fresh tokens: a token validates exactly if its login found room, nobody logged out since, and every gap between consecutive uses, up to now, was measured within 180000 ms |
| SessionHistory.TrueAnswersIffRightlyJudged | components/http-server/http_server.c:147-148 | Over any history in order, the table answers every use of a token as true time demands if and only if no gap between two uses of a session is misjudged |
| SessionHistory.AcceptedInTrueTime | components/http-server/http_server.c:147-148 | The same in true time, with requests in order and no earlier gap misjudged: the last gap is at most 180000 ms, or it is at least 2^32 ms and wraps to within the limit |
| SessionHistory.AcceptedIffGapsWithinLimit | components/http-server/http_server.c:133-160 | With requests in order and consecutive uses of a token less than 2^32 ms apart: a token validates exactly if its login found room, nobody logged out since, and every true gap is at most 180000 ms |
| SessionTable.SessionTable.constructor | components/http-server/http_server.c:50-50 | All slots inactive |
| SessionTable.SessionTable.ValidateToken | components/http-server/http_server.c:133-160 | The scan finds the first active slot of the token; refreshes it or ends it |
| SessionTable.SessionTable.SaveToken | components/http-server/http_server.c:228-238 | The first free slot is taken, if there is one |
| SessionTable.SessionTable.LogOut | components/http-server/http_server.c:298-304 | A valid token logs everybody out |
| BootScan.StepKeepsScan | main/routine_event_handler.c:137-180 | Every step keeps the token, the channel counter, the list of requested channels and the pending job in agreement |
| BootScan.ExactlyOneToken | main/routine_event_handler.c:137-172 | Before the access point is up there is exactly one running discovery, pending event or delegated job |
| BootScan.DiscoveryChannel | main/routine_event_handler.c:150-162 | A discovery after k >= 1 empty results runs on channel ((k - 1) mod 13) + 1 |
| BootScan.EveryChannelVisited | main/routine_event_handler.c:151-154 | Any 13 consecutive channel requests visit each channel exactly once |
| BootScan.AccessPointChannel | main/routine_event_handler.c:67-76 | The access point starts on the radio's channel exactly if some result was empty; otherwise it is given channel 0 |
| BootScan.FirstTimeLucky | main/routine_event_handler.c:165-168 | A run in which the access point is given channel 0 while the radio is on 1 |
| BootScan.ScanGoesOn | main/routine_event_handler.c:80-106 | Until the ready signal whatever carries the scan can move: a discovery end, an event be handled without waiting for the job queue, a job be taken or run |
| BootScan.JobsDoneIsARun | main/routine_event_handler.c:80-87 | What the delegate loop does before it blocks is a run that takes and runs each queued job in order and leaves none |
| BootScan.PostedJobRunsLast | main/routine_event_handler.c:90-106 | A posted job runs after everything queued before it; one with more than 32 argument bytes never runs |
| BootScan.JobEffect | main/routine_event_handler.c:45-76 | A job without exactly one argument byte returns at once; otherwise it restarts discovery on that channel or starts the access point on it and signals |
| BootScan.BootScan.constructor | main/routine_event_handler.c:142-142 | The counter starts at 0, one discovery runs on channel 1 |
| BootScan.BootScan.DelegatePost | main/routine_event_handler.c:90-106 | A copy of the argument is queued unless it exceeds 32 bytes |
| BootScan.BootScan.HandleDiscoveryComplete | main/routine_event_handler.c:146-172 | An empty result moves the counter on and delegates a restart there; another one delegates the access point |
| BootScan.BootScan.RunOneJob | main/routine_event_handler.c:45-76 | Either delegated job, to its end |
| BootScan.BootScan.DelegateRunTask | main/routine_event_handler.c:80-87 | The delegate loop is the fold of its jobs |

## Left out

- Screens, icons, browser pages and their scripts: presentation.
- ESP-NOW transport, peer registry, message codec, sync manager and event adapter: not part of this model.
- Image hashing, the bootloader and its rollback: the flash is an abstract handle with arbitrary failures.
- JSON parsing, header scanning, the credential check, token randomness and static pages: library calls or
  easy; `SaveToken` starts after the credentials matched.
- Tokens that the 64-byte slot would truncate: generated tokens have 32 characters.
- `get_lock_status`, the setters and getters of the system context, the empty exception handler and the
  servo lock, which is not built: easy members.
- The periodic rediscovery of the main loop: it starts after the scan that is modelled.
- The timer daemon's own command queue, and the start of the lock before its timer exists.
- The time an update write takes: the worker reads a buffer in one step; exclusive ownership holds
  throughout, so no step in between could change it.
- The null-pointer check of the event handler and the "Mem not available" branch of the upload handler:
  neither can be reached, because buffers are never null and the acquire waits without limit.
- The three event numbers of started, chunk-arrived and complete, which the event handler maps one to one
  to update messages, are one event constructor carrying the message.
- The 32-bit width of the written length, which is only logged.
- LockHistory.LastRequestWins: needs the strict schedule; under the prompt one it is false, as
  PromptScheduleLosesLastRequest shows, and LastRequestDecided is the exact condition.
- PipelineUpload.RestartInstallsWholeUploads: assumes that no message was dropped; UploadInstallsItself and
  FlashIsExact do not, NoLossOnceStarted says when it is certain, and SlowWorkerDropsChunk that it can fail.
- Descriptions without any zero byte from their version on, where `strcmp` would read past the structure.
