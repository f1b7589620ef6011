# Verification of the rover's CANopen arm driver, drivetrain and synthetic VIO node

This project models three parts of the repository in Dafny and proves what they are for.

**The `pxx` arm driver** is modelled as a distributed system. `PxxCan.dfy` is the frame codec, with the readings of both
ends. `Drive.dfy` is a strict drive after CiA 301 v4.2.0 (SDO 7.2.4, PDO 7.2.2, NMT 7.3.2, pre-defined connection set
7.3.3, PDO objects 7.5.2) and CiA DSP 402 v2.0 (section 10): it aborts every object write the standards let it refuse,
and its status word may carry anything in the bits that do not tell the power state.
`Network.dfy` joins host and drives by FIFO links that lose frames, and lists everything that can happen on them
(deliveries, losses, drive faults, movement, heartbeats, asynchronous PDOs, the receive thread) as steps; `Run` is any
sequence of steps. `Transactions.dfy`, `Operation.dfy`, `Sending.dfy`, `BringUp.dfy`, `History.dfy` and `Lifecycle.dfy`
prove what such runs keep; `Script.dfy` lists the frames of one bring-up. `MotorBackend.dfy` is the class
`SocketCanMotorBackend` with its mutable fields; between any two of its statements that matter, `Interleave` lets any run
happen. `Plugin.dfy` is `PxxSystemHardware` and whole runs of it; `MockMotor.dfy` and `Counts.dfy` compare the mock, the
former by running it and the SocketCAN backend side by side. `Threads.dfy` looks at the two threads of a backend one
atomic action at a time: mutexes, condition variable, flag, descriptor, join; `LateAnswers.dfy` says exactly which late
answers can disturb a transaction, `AnswerOrder.dfy` in which order answers are accepted.

**The `odesc` drivetrain** (`Odesc.dfy`) has the CANSimple codec, both backends and the vCAN emulator as classes, and runs
the mock and the SocketCAN path side by side.

**The synthetic VIO node** (`SyntheticVio.dfy`) has the stream seeds in 64-bit arithmetic, the delayed-delivery queue with
its clock, and the angle wrap.

How to read the contracts: `World` is the state of all links plus what the receive thread shares, with the `trace` of
everything that has led to it; the state is always the replay of its trace (`Replay`, part of `Valid`), so "since" and
"at the mark" are statements about what really happened. `shutAt` marks the place in the trace where the last shutdown
began. `WorldOk` is the invariant of every run. `Idle`, `Ready` and `Operating` are the states of the backend at rest,
during configuration and in the cyclic phase. A link counts frames that never reached its drive (`lost`) and shutdown
words among them (`missed`); `trouble` counts losses, refusals, drive faults and timeouts, so that "without trouble"
can be said. These counters, the request ids, the histories and the trace are bookkeeping that neither host nor drive
looks at. Losing an answer on its way to the host costs trouble but does not count as lost to the drive.

## Assumptions about the environment

- Node ids are pairwise distinct (the plugin checks only their range; `CyclicOperation.LaterTargetWins` shows what
  happens otherwise), in 1..127, and gear ratios are not zero. A drive that is absent is one whose frames are all lost.
- Frames of one sender arrive in order or not at all. Frames that arrive while the socket is closed are gone.
- A drive answers an SDO request at most once, and not after its transaction has been given up; for the shutdown writes,
  which nobody waits for, the answer may come at any later time. `Threads.dfy` does without the second half: there every
  answer may come at any later time, in whatever socket is open then, in the order in which its drive was asked.
- Before the first activation nothing has travelled on the bus and bit 7 of each drive's last control word is clear; NMT and
  power state, mapping, mode and target of each drive are arbitrary.
- Drives do not restart or change node id during a run. Calls come in ros2_control order: activation only while inactive.
- Doubles are exact reals; float32 values are 32-bit patterns with arbitrary encode and decode functions, and the
  drivetrain theorem speaks about runs in which the commands fit float32 and the socket took every frame.

## Findings

Paths are relative to `ros2_ws/src/`.

- The NMT start command is not acknowledged (`pxx/src/socketcan_motor_backend.cpp:120`). A drive that misses it answers
  the three control words and the status read all the same (`BringUp.LostStartGoesUnnoticed`), so activation succeeds; it
  is Operational if and only if no frame to it was lost since the start command went out, and otherwise pre-operational
  with exactly that frame lost (`ConfigureNode`, `Activate`). Such a drive holds its position, ignores every target and
  sends no feedback, and `read` (`:175-189`) goes on reporting the seeded position until deactivation
  (`CyclicOperation.RunKeepsDecided`, `Lifecycle.StrandedPositions`, `PxxSystemHardware.AnyRun`).
- The stored response is overwritten by whatever SDO answer comes next (`pxx/src/socketcan_motor_backend.cpp:292-298`). A
  late shutdown acknowledgement of another drive, stored between an answer and the main thread's look at it
  (`:248-252`), leaves the transaction without its answer although it was given (`ReceiveThread.AnswerCanBeOverwritten`).
  The answer can be lost if and only if a request to another drive is unanswered when this one goes out
  (`LateAnswers.LosableIff`); with two drives or more, slow shutdown acknowledgements make the next `activate` start that
  way. A request the same drive has not answered yet does no such harm, nor does anything already in the socket.
- The acknowledgement of a shutdown write (`pxx/src/socketcan_motor_backend.cpp:150-153`) can be taken for that of the next
  activation's first write (`:78`) (`SdoTransactions.MixUpHappens`). A transaction can accept an answer that is not its own
  if and only if that answer is about the same object and under way when the request goes out
  (`LateAnswers.AcceptableIff`), which with no transaction given up before means 6040h:0
  (`SdoTransactions.MixUpIsAboutControlWords`, `ReceiveThread.EveryAcceptedAnswerIsOurs`). Each drive's answers are accepted
  in the order of its requests (`AnswerOrder.AcceptedInOrder`). FIFO order makes the mix-up harmless: nothing
  becomes unsafe (`BringUp.EndsMode`, `PxxSystemHardware.AnyRun`), and bring-up still converges (`BringUp.CalmChain`,
  `ConfigureNode`).
- A command a controller stores and takes back to NaN before the next `write` is never sent
  (`pxx/src/socketcan_motor_backend.cpp:207-209`, `PxxSystemHardware.StoreAndWithdraw`); "the last non-NaN command" means
  the last one a `write` saw (`CommandHistory.GoalIsLastClaim`).
- The mock starts every joint at zero (`pxx/src/mock_motor_backend.cpp:27-32`), a real drive where it stands. Until a joint
  is commanded they differ by the seed, from then on, while commands are in range, by at most half a count
  (`MockMotor.MirroredArm.Runs`).
- A commanded angle whose counts leave int32 wraps around (`pxx/include/pxx/can.hpp:147-150`, `Counts.OverflowWraps`); it is
  sent exactly if and only if the rounded counts fit (`Counts.InRangeIsExact`).
- A delayed measurement with an earlier release time waits behind a later one
  (`perception/zed2i/src/synthetic_vio_node.cpp:335-341`); none ever waits if and only if release times do not decrease
  along the queue (`DelayedDelivery.NothingDueStaysBehindIffSorted`).
- The emulator integrates before it drains the commands (`odesc/scripts/odesc_vcan_emulator.py:49-65`), so against it the
  SocketCAN drivetrain differs from the mock by change of speed times drain delay (`Drivetrain.VirtualDrivetrain.Runs`; a
  concrete run in `Drivetrain.VirtualDrivetrain.RunOneLateCycle`, exactly when in `Drivetrain.LagStaysIff`).

## Model

| member | source | states |
|---|---|---|
| SystemHardware.PxxSystemHardware.AnyRun | ros2_ws/src/pxx/src/pxx.cpp:161-237 | After any sequence of plugin calls in ros2_control order, with any losses, timeouts, aborts and drive faults in between: every entry into Operation Enabled that ever happened was in CSP mode with target equal to the position reported in that same activation; every fault reset was a rising edge unless a shutdown word got lost; the drive of a joint no controller has claimed still aims at its seed with no target frame sent; a drive that missed no frame aims at the last command written once it has arrived; a drive that missed the start command stays pre-operational with target and table entry at the seed; and whenever the backend is closed, after a deactivation or a failed activation, every drive that was listening when the shutdown began, among them every drive that had reported its position by then or was ever enabled by the host, has been shut down: nothing but the shutdown frames was sent since the mark, and unless a frame to the drive was lost since the mark it is out of Operation Enabled once they have arrived |
| Lifecycle.RetiredRun | ros2_ws/src/pxx/src/socketcan_motor_backend.cpp:144-165 | Between activations, whatever happens on the bus: the frames handed to the socket since the last shutdown began stay exactly the shutdown frames, every drive that was listening then goes on halting, and no drive is raised any more |
| Lifecycle.RetiredStops | ros2_ws/src/pxx/src/socketcan_motor_backend.cpp:144-165 | Every drive that had reported its position when the last shutdown began, and every drive the host has ever enabled, was listening then; a drive that was listening is not in Operation Enabled any more if no frame to it was lost since and none is under way. Before the first shutdown no drive was ever enabled |
| SystemHardware.AlwaysSafe | ros2_ws/src/pxx/src/socketcan_motor_backend.cpp:107-126 | The network invariant, kept by every step of every run, contains no-jump-on-enable and rising-edge resets |
| CanNetwork.TroubleMeansSomethingWentWrong | ros2_ws/src/pxx/src/socketcan_motor_backend.cpp:234-300 | Between two points of one story the trouble counter grows if and only if the story has a frame really lost, a drive tripping, a frame the socket refused or a transaction given up in between; so 'without trouble' means what it says |
| CanNetwork.WorldOkRun | ros2_ws/src/pxx/src/socketcan_motor_backend.cpp:274-300 | Whatever losses, faults, movements and receive-thread steps happen between two statements of the main thread, the invariants of every link survive |
| CanNetwork.EnableStep | ros2_ws/src/pxx/src/socketcan_motor_backend.cpp:120-126 | An enable command under way always finds the drive in CSP mode and seeded in its own activation, with only NMT commands and control words ahead of it; so every entry into Operation Enabled is without a jump |
| CanNetwork.EdgesStep | ros2_ws/src/pxx/src/socketcan_motor_backend.cpp:150-156 | While no shutdown control word has been lost, each 0080h that takes effect finds bit 7 of the previous control word clear, whatever else is lost |
| Sending.PushOk | ros2_ws/src/pxx/src/socketcan_motor_backend.cpp:269-272 | What the host must see to before a frame goes out (nothing under way and a seeded drive before an enable command; bit 7 clear before a fault reset) suffices for the invariants |
| SdoTransactions.RunKeepsInFlight | ros2_ws/src/pxx/src/socketcan_motor_backend.cpp:243-252 | From the request to the look at the response: the request is last in the queue and everything else drifted, or the drive has served it and nothing after it, or it was lost; and an answer with its id is the drive's answer to it |
| SdoTransactions.AcceptedIsOurs | ros2_ws/src/pxx/src/socketcan_motor_backend.cpp:247-252 | A response that passes the node/index/subindex test is the drive's own answer to this very request, provided no SDO traffic was left over or the object is not 6040h:0; afterwards no SDO traffic is left for this drive |
| SdoTransactions.AnswersMatchTheirObject | ros2_ws/src/pxx/src/socketcan_motor_backend.cpp:247-252 | A drive's answer passes the test for a request exactly if it comes from the node asked and is about index and subindex asked for |
| SdoTransactions.MixUpIsAboutControlWords | ros2_ws/src/pxx/src/socketcan_motor_backend.cpp:243-252 | For every run after a request went out: a response that passes the test is the drive's own answer to it, or it answers an older request and both are about 6040h:0 |
| SdoTransactions.MixUpHappens | ros2_ws/src/pxx/src/socketcan_motor_backend.cpp:150-153 | A concrete state in which it does happen: the fault reset of a new activation is taken for acknowledged while it has not reached the drive |
| BringUp.EndsMode | ros2_ws/src/pxx/src/socketcan_motor_backend.cpp:78-80 | The mix-up is harmless: when the mode write after it is acknowledged, the drive has taken that write and everything before it, whatever was left over |
| BringUp.CalmChain | ros2_ws/src/pxx/src/socketcan_motor_backend.cpp:72-80 | With left-over shutdown traffic, and even if the fault reset was taken for acknowledged too early: when the mode write is done, the drive is pre-operational in CSP mode, and power state and bit 7 are those of the reset after everything before it |
| MotorBackend.SocketCanMotorBackend.SdoTransaction | ros2_ws/src/pxx/src/socketcan_motor_backend.cpp:234-267 | Success or failure, the answer, the returned value, what other drives notice, and the untouched silence of this one, for every interleaving with the receive thread; a timed-out request leaves nothing that a later one could accept |
| MotorBackend.SocketCanMotorBackend.ResetAndSend | ros2_ws/src/pxx/src/socketcan_motor_backend.cpp:243-247 | Between the reset of the response and the send no answer is stored; a refused frame fails the transaction and changes nothing else |
| MotorBackend.SocketCanMotorBackend.AwaitAnswer | ros2_ws/src/pxx/src/socketcan_motor_backend.cpp:248-266 | Exactly when a matching response is stored at the look the transaction ends with it, failing exactly if it is an abort and returning its value otherwise, and nothing else changes; exactly when none is, it gives up and its late answer is never heard |
| MotorBackend.SocketCanMotorBackend.SdoWriteTo | ros2_ws/src/pxx/src/socketcan_motor_backend.cpp:219-225 | A successful write means the object dictionary took exactly this value and nothing else changed; without trouble it fails only if the drive refuses the object |
| MotorBackend.SocketCanMotorBackend.SdoReadFrom | ros2_ws/src/pxx/src/socketcan_motor_backend.cpp:227-232 | A successful read ends a transaction with the drive's own data |
| ReceiveThread.Reachable | ros2_ws/src/pxx/src/socketcan_motor_backend.cpp:144-300 | Every schedule of the two threads' atomic actions, with shutdown writes whose answers may come in any later socket and answers that come after the timeout, keeps lock ownership, the agreement of descriptor, flag and thread, at most one answer per request, and the rendezvous invariant |
| ReceiveThread.EveryAcceptedAnswerIsOurs | ros2_ws/src/pxx/src/socketcan_motor_backend.cpp:243-267 | In every schedule the answer accepted by a transaction is the one to its own request, or a left-over about the same object: of 6040h:0, or of a transaction that ended without its answer. As long as no transaction has timed out, every other answer is the transaction's own |
| ReceiveThread.AtMostOneAnswer | ros2_ws/src/pxx/src/socketcan_motor_backend.cpp:292-298 | In every schedule each request has at most one answer anywhere: to come, in the socket, parsed but blocked on the mutex, being stored, or stored. During a transaction each answer is the one waited for or a left-over, and the one waited for still exists unless a left-over was stored over it |
| ReceiveThread.AnswerCanBeOverwritten | ros2_ws/src/pxx/src/socketcan_motor_backend.cpp:248-256 | A schedule in which an answer is lost: another drive's late shutdown acknowledgement is stored between the answer and the main thread's look; the main thread finds the wrong object and sleeps on with no answer left anywhere |
| LateAnswers.LosableIff | ros2_ws/src/pxx/src/socketcan_motor_backend.cpp:292-298 | For every reachable state in which a request is about to go out: some continuation of the transaction loses the drive's answer to it (given, but neither in the socket nor parsed nor stored) if and only if a request to another drive is unanswered at that moment |
| LateAnswers.AcceptableIff | ros2_ws/src/pxx/src/socketcan_motor_backend.cpp:243-252 | For every reachable state in which a request is about to go out, and every answer: some continuation has this transaction accept it if and only if it is the answer to this request, or it is about the same object and under way at that moment |
| LateAnswers.DuringIsASchedule | ros2_ws/src/pxx/src/socketcan_motor_backend.cpp:243-252 | The continuations these two speak of are schedules of the two threads like any other |
| AnswerOrder.AcceptedInOrder | ros2_ws/src/pxx/src/socketcan_motor_backend.cpp:243-298 | In every schedule the answers of one drive are accepted in the order of its requests, however late they come, and none for a request sent after the accepting one: once a transaction has accepted an answer, no answer to that request or an older one of the drive, given up or not, can be accepted any more |
| AnswerOrder.AlwaysInOrder | ros2_ws/src/pxx/src/socketcan_motor_backend.cpp:274-299 | What that rests on, kept by every action: what the receive thread has yet to store is ordered per drive, everything unanswered comes after it, and everything stored or accepted came before it |
| ReceiveThread.NoLostWakeup | ros2_ws/src/pxx/src/socketcan_motor_backend.cpp:248-252 | While the main thread sleeps on the condition variable, a matching response cannot be stored without a notification on its way |
| ReceiveThread.DescriptorOutlivesThread | ros2_ws/src/pxx/src/socketcan_motor_backend.cpp:159-164 | A live receive thread always works on the open descriptor it was started with; between calls open, running and joinable agree. The drivetrain backend is the same machine without transactions |
| ReceiveThread.JoinTerminates | ros2_ws/src/pxx/src/socketcan_motor_backend.cpp:159-162 | Once the flag is down the receive thread ends after at most five of its actions, whatever arrives on the bus |
| ReceiveThread.JoinAdvances | ros2_ws/src/pxx/src/socketcan_motor_backend.cpp:159-162 | While join waits the receive thread is never blocked, and each of its actions brings its end nearer |
| ReceiveThread.SomebodyCanAct | ros2_ws/src/pxx/src/socketcan_motor_backend.cpp:243-252 | No deadlock: during a call one of the two threads can always act |
| ReceiveThread.ReadSeesOneInstant | ros2_ws/src/pxx/src/socketcan_motor_backend.cpp:175-191 | While read() holds the feedback mutex, no frame is recorded |
| BringUp.RpdoSteps | ros2_ws/src/pxx/src/socketcan_motor_backend.cpp:81-87 | For a strict drive each of the six RPDO1 writes is either refused or does its part of the remapping; a pre-operational drive whose PDO is free refuses none, any other refuses the first mapping write; the result is the layout the host assumes |
| BringUp.Tpdo1Steps | ros2_ws/src/pxx/src/socketcan_motor_backend.cpp:88-95 | The same for the seven TPDO1 writes |
| BringUp.Tpdo2Steps | ros2_ws/src/pxx/src/socketcan_motor_backend.cpp:96-102 | The same for the six TPDO2 writes |
| Cia402Drive.MapEntryUnpacks | ros2_ws/src/pxx/include/pxx/can.hpp:85-90 | Index, subindex and length can be read back from a mapping entry, for all values |
| Cia402Drive.MotionLayoutAgrees | ros2_ws/src/pxx/include/pxx/can.hpp:297-309 | Packing TPDO1 through the mapping the host wrote and parsing it as the host does yields exactly the drive's position and velocity, for all int32 values |
| Cia402Drive.StatusLayoutAgrees | ros2_ws/src/pxx/include/pxx/can.hpp:318-329 | Packing TPDO2 through the mapping and parsing it yields exactly the drive's status word |
| Cia402Drive.TargetLayoutAgrees | ros2_ws/src/pxx/include/pxx/can.hpp:226-233 | A target frame followed by SYNC sets 607Ah of an operational, configured drive to exactly the commanded counts and changes nothing else |
| MotorBackend.SocketCanMotorBackend.WriteNext | ros2_ws/src/pxx/src/socketcan_motor_backend.cpp:77-105 | One link of the chain of writes: skipped after a failure, otherwise it moves the drive exactly one stage on; after a failure no frame is sent |
| MotorBackend.SocketCanMotorBackend.MapRpdo1 | ros2_ws/src/pxx/src/socketcan_motor_backend.cpp:81-87 | Leaves RPDO1 of this drive fully remapped or fails; without trouble it cannot fail on a pre-operational drive whose PDO is free |
| MotorBackend.SocketCanMotorBackend.MapTpdo1 | ros2_ws/src/pxx/src/socketcan_motor_backend.cpp:88-95 | The same for TPDO1 |
| MotorBackend.SocketCanMotorBackend.MapTpdo2 | ros2_ws/src/pxx/src/socketcan_motor_backend.cpp:96-102 | The same for TPDO2 |
| MotorBackend.SocketCanMotorBackend.Prepare | ros2_ws/src/pxx/src/socketcan_motor_backend.cpp:72-80 | Success means the drive is in CSP mode with nothing under way, whatever was left over or lost before; without trouble it never fails, and the drive is pre-operational and its power state is what the fault reset makes of everything that was under way |
| MotorBackend.SocketCanMotorBackend.Seed | ros2_ws/src/pxx/src/socketcan_motor_backend.cpp:107-118 | Success means target equals the position just reported, the report belongs to this activation, and the feedback entry holds it too; nothing under way can change the entry |
| MotorBackend.SocketCanMotorBackend.Enable | ros2_ws/src/pxx/src/socketcan_motor_backend.cpp:120-126 | Success means all three control words were acknowledged after an NMT start was sent; mode, mapping and target are untouched, the drive is not in Quick Stop Active, and exactly two things can have become of the start: taken, or the one frame lost |
| MotorBackend.SocketCanMotorBackend.CheckStatus | ros2_ws/src/pxx/src/socketcan_motor_backend.cpp:128-141 | Succeeds exactly when the status word was read with bit 2 set and bit 3 clear, whatever its other bits are; otherwise, if it was read, the error code is read and returned; both values are the drive's own when nothing else was under way |
| MotorBackend.SocketCanMotorBackend.Raise | ros2_ws/src/pxx/src/socketcan_motor_backend.cpp:107-141 | What follows the remapping: the same guarantees from the state the remapping left, and exactly the frames of seed, enable and check in order, the error code asked for only after a status word that does not look enabled |
| MotorBackend.SocketCanMotorBackend.ConfigureNode | ros2_ws/src/pxx/src/socketcan_motor_backend.cpp:65-142 | Success guarantees configured, seeded, silent and seen in Operation Enabled, whatever went wrong on the way, and the drive is Operational if and only if no frame to it was lost since the start command went out, otherwise pre-operational with exactly that one lost; from any NMT state, any settled power state and with anything an earlier activation left still under way, without loss, fault, refusal or timeout it succeeds if and only if no fault stands that one reset cannot clear, and then the drive is Operational and enabled; if it fails on a drive without such a fault, something went wrong in this very call. Other drives notice nothing. The frames handed to the socket are exactly those of the script, in order, with the position read as the target: all of them on success, else those up to the first that failed |
| BringUp.WalkReaches | ros2_ws/src/pxx/include/pxx/can.hpp:98-102 | From every settled power state the host's control words lead to Operation Enabled, unless an uncleared fault stands, and then to Fault |
| Cia402Drive.LooksEnabledMeans | ros2_ws/src/pxx/src/socketcan_motor_backend.cpp:132-132 | For every status word a drive can show in a power state, whatever its bits 4 and 7 to 15: the host's status test passes exactly in Operation Enabled and Quick Stop Active, and the fault bit is set exactly in Fault and Fault Reaction Active |
| Cia402Drive.TwoBitsDecide | ros2_ws/src/pxx/src/socketcan_motor_backend.cpp:132-132 | The test looks at bits 2 and 3 of the word and at nothing else |
| Cia402Drive.EveryStatusWordOccurs | ros2_ws/src/pxx/include/pxx/can.hpp:106-117 | The status words a drive can show in a power state are exactly the 16-bit words with the code CiA DSP 402 gives that state, so nothing a real drive may report is left out |
| BringUp.NodeDone | ros2_ws/src/pxx/src/socketcan_motor_backend.cpp:128-141 | Quick Stop Active, which would pass the status test, cannot be what passed it: the drive was in Operation Enabled when it answered |
| BringUp.LostStartGoesUnnoticed | ros2_ws/src/pxx/src/socketcan_motor_backend.cpp:120-141 | From every settled state the fault reset leads to, Fault apart, a pre-operational drive that never sees the start command acknowledges all three control words and looks enabled, but sends no feedback and takes no target |
| Lifecycle.FateKept | ros2_ws/src/pxx/src/socketcan_motor_backend.cpp:120-126 | Whether the start command of a drive arrived is settled when its configuration ends: configuring the other drives changes neither its NMT state nor its count of lost frames |
| CyclicOperation.RunKeepsDecided | ros2_ws/src/pxx/src/socketcan_motor_backend.cpp:167-217 | With only target frames and SYNCs under way, no run changes a drive's NMT state; a pre-operational one keeps its target, sends no position, and its table entry stays what it was |
| Lifecycle.StrandedPositions | ros2_ws/src/pxx/src/socketcan_motor_backend.cpp:175-189 | In the cyclic phase, after any writes, the table entry of a drive that is pre-operational is the seed, so read() reports the position it had at activation |
| BringUp.ConfiguredIsPredefined | ros2_ws/src/pxx/src/socketcan_motor_backend.cpp:68-70 | A drive configured once is fit for the remapping of the next activation |
| Lifecycle.FitAfterCyclicPhase | ros2_ws/src/pxx/src/socketcan_motor_backend.cpp:68-70 | Whatever target frames, SYNCs, control words and NMT commands are left under way by a cyclic phase and its shutdown, a settled drive is fit for the next configure_node |
| MotorBackend.SocketCanMotorBackend.Activate | ros2_ws/src/pxx/src/socketcan_motor_backend.cpp:40-61 | All or nothing: success means every drive is configured and seeded, the cyclic phase can begin, and each drive is Operational exactly if no frame to it was lost since its start command; failure means socket closed, thread joined, exactly the shutdown frames sent last, and every drive halting that was live before activation or has reported since. Without trouble it succeeds if and only if every drive's fault, if any, can be cleared; if it fails although none stands in the way, something went wrong in this very call. The frames handed to the socket are exactly the scripts of the drives in order, each with its seed; on failure those of the drives brought up, the failing one's up to the frame that failed, and the shutdown |
| MotorBackend.SocketCanMotorBackend.ConfigureAll | ros2_ws/src/pxx/src/socketcan_motor_backend.cpp:54-60 | Drives configured earlier keep mode, target, silence, seed and NMT state while later ones are configured; the first failure shuts down all, from a marked state no drive was stopped on the way to |
| Lifecycle.ActivationStep | ros2_ws/src/pxx/src/socketcan_motor_backend.cpp:54-59 | One more drive configured keeps every earlier one raised and every later one as activation found it |
| BringUpScript.OneDriveMore | ros2_ws/src/pxx/src/socketcan_motor_backend.cpp:54-60 | The scripts of the drives brought up so far followed by the script of the next one are the script of all of them, each drive's target being the position it reported |
| BringUpScript.OneFrameMore | ros2_ws/src/pxx/src/socketcan_motor_backend.cpp:77-105 | In a chain of requests each frame follows the one before it in the script if that one succeeded, and none follows a failure |
| BringUpScript.PrepareBytes | ros2_ws/src/pxx/src/socketcan_motor_backend.cpp:72-80 | The frames of configure_node byte by byte, for every node: NMT pre-operational, fault reset, mode of operation, ... |
| BringUpScript.Rpdo1Bytes | ros2_ws/src/pxx/src/socketcan_motor_backend.cpp:81-87 | ... the remapping of RPDO1, ... |
| BringUpScript.Tpdo1Bytes | ros2_ws/src/pxx/src/socketcan_motor_backend.cpp:88-95 | ... of TPDO1, ... |
| BringUpScript.Tpdo2Bytes | ros2_ws/src/pxx/src/socketcan_motor_backend.cpp:96-102 | ... of TPDO2, ... |
| BringUpScript.SeedAndStatusBytes | ros2_ws/src/pxx/src/socketcan_motor_backend.cpp:109-135 | ... the seed, the status check, ... |
| BringUpScript.EnableBytes | ros2_ws/src/pxx/src/socketcan_motor_backend.cpp:120-126 | ... and the way to Operation Enabled |
| Lifecycle.ShutdownBytes | ros2_ws/src/pxx/src/socketcan_motor_backend.cpp:150-156 | The two shutdown frames of each drive byte by byte, in order |
| MotorBackend.SocketCanMotorBackend.Deactivate | ros2_ws/src/pxx/src/socketcan_motor_backend.cpp:144-165 | Attempts exactly the two shutdown frames per drive in order, whatever is refused; afterwards closed and joined, bit 7 of every drive clear or about to be, every live drive stopping and none raised any more, with the mark at the beginning of the call; on an inactive backend it changes nothing and reports success |
| Lifecycle.HaltsForGood | ros2_ws/src/pxx/src/socketcan_motor_backend.cpp:150-156 | After shutdown, in any run without further loss to a drive, the drive is not in Operation Enabled once everything has arrived |
| CyclicOperation.RunKeepsHalting | ros2_ws/src/pxx/src/socketcan_motor_backend.cpp:150-156 | A stopping drive stays a stopping drive through every event but the loss of a frame to it |
| MotorBackend.SocketCanMotorBackend.constructor | ros2_ws/src/pxx/src/socketcan_motor_backend.cpp:27-33 | A backend over fresh links starts inactive with every invariant of rest |
| MotorBackend.SocketCanMotorBackend.ClearFeedback | ros2_ws/src/pxx/src/socketcan_motor_backend.cpp:46-49 | Every one of the 128 entries is cleared and a new history begins |
| MotorBackend.SocketCanMotorBackend.Write | ros2_ws/src/pxx/src/socketcan_motor_backend.cpp:193-217 | On an open socket with matching sizes: exactly one target frame per non-NaN joint in order, then exactly one SYNC, even when sends are refused; true exactly when all were accepted; every drive keeps following. Otherwise nothing is sent and nothing changes |
| CommandHistory.FramePosted | ros2_ws/src/pxx/src/socketcan_motor_backend.cpp:206-213 | The frame of one joint reaches only its own drive and carries exactly its command in counts |
| CommandHistory.SyncPosted | ros2_ws/src/pxx/src/socketcan_motor_backend.cpp:214-215 | The SYNC makes every drive's last target frame its goal, and changes nothing where none was sent |
| CyclicOperation.RunKeepsHolds | ros2_ws/src/pxx/src/socketcan_motor_backend.cpp:206-213 | With any loss and any fault a drive aims at its seed or at a value that was commanded, never at anything else |
| CyclicOperation.CyclingDrained | ros2_ws/src/pxx/src/socketcan_motor_backend.cpp:214-215 | If no frame to a drive was lost since activation began, then once everything has arrived its target is the goal and it is Operational |
| CommandHistory.GoalIsLastClaim | ros2_ws/src/pxx/src/socketcan_motor_backend.cpp:207-212 | The goal is the last non-NaN command any write held, times the gear ratio, in counts |
| CommandHistory.UnclaimedHoldsSeed | ros2_ws/src/pxx/src/socketcan_motor_backend.cpp:207-209 | A joint has had only NaN written if and only if nothing was commanded; its goal is the seed |
| SystemHardware.SteadyTracks | ros2_ws/src/pxx/src/socketcan_motor_backend.cpp:206-215 | In the cyclic phase a drive aims at its seed or at a commanded value; if no frame to it was lost since activation began and nothing is under way, it is Operational and aims at the last non-NaN command written, in counts |
| SystemHardware.HeldWhileUnclaimed | ros2_ws/src/pxx/src/pxx.cpp:171-174 | Until a joint is claimed, no RPDO1 frame has reached its drive or is under way and the target is the seeded one |
| CyclicOperation.LaterTargetWins | ros2_ws/src/pxx/src/pxx.cpp:97-104 | Node ids are range-checked but not checked for distinctness; of two joints with one node id the later frame of a write wins |
| MotorBackend.SocketCanMotorBackend.SendFrame | ros2_ws/src/pxx/src/socketcan_motor_backend.cpp:269-272 | A frame reaches every drive it concerns, or none and is counted as lost, after anything else that happens first |
| MotorBackend.SocketCanMotorBackend.Dispatch | ros2_ws/src/pxx/src/socketcan_motor_backend.cpp:282-298 | After any frame each entry of the table is the last motion, status or emergency value heard for its node, and an SDO answer becomes the stored response; nothing else changes |
| MotorBackend.SocketCanMotorBackend.RxLoopBody | ros2_ws/src/pxx/src/socketcan_motor_backend.cpp:276-299 | One pass of the receive loop is one step of the network model: parsed, recorded or stored, or left where it is while the mutex is taken |
| MotorBackend.SocketCanMotorBackend.Interleave | ros2_ws/src/pxx/src/socketcan_motor_backend.cpp:274-300 | Any number of events keeps the table equal to the history since activation |
| CyclicOperation.RunKeepsSeed | ros2_ws/src/pxx/src/socketcan_motor_backend.cpp:175-175 | Only a SYNC provokes position feedback: while none was sent, the position entry of a configured drive stays the seed |
| MotorBackend.SocketCanMotorBackend.Read | ros2_ws/src/pxx/src/socketcan_motor_backend.cpp:167-191 | Fails exactly when closed or when some node's last status word has the fault bit; fills the joints before the first faulty one from one instant of the history and no other, with angle times gear ratio and speed times gear ratio what the counts and counts per second heard stand for on one scale; before the first write, and ever after for a drive that missed the start command, the positions are the seeded ones |
| MotorBackend.SocketCanMotorBackend.Fill | ros2_ws/src/pxx/src/socketcan_motor_backend.cpp:178-190 | The loop under the feedback mutex: verdict and every filled entry, faulty or not, with angle and speed at the motor shaft |
| MotorBackend.VelocityIsRate | ros2_ws/src/pxx/src/socketcan_motor_backend.cpp:187-188 | Velocity is the rate of position at the joint: if a drive has moved on for t seconds at the speed it reported, the joint position read later differs by velocity times t |
| MotorBackend.TableShowsTheDrive | ros2_ws/src/pxx/src/socketcan_motor_backend.cpp:282-291 | After the last report of its kind from a configured drive the table holds exactly the drive's position and velocity, status word, or error code at the moment of that report |
| MotorBackend.ReadFailsOnFaults | ros2_ws/src/pxx/src/socketcan_motor_backend.cpp:180-186 | With a status word heard of every drive, read() fails if and only if one of them was in Fault or Fault Reaction Active when it sent it, whatever the other status bits |
| Cia402Drive.HeardAs | ros2_ws/src/pxx/src/socketcan_motor_backend.cpp:282-298 | What each of the four parsers makes of each kind of drive message; at most one accepts it |
| SystemHardware.PxxSystemHardware.OnActivate | ros2_ws/src/pxx/src/pxx.cpp:161-182 | Success leaves every command NaN and every velocity zero with an operating backend; failure leaves commands and velocities as they were, the backend at rest, and the drives shut down unless nothing happened at all |
| SystemHardware.PxxSystemHardware.OnDeactivate | ros2_ws/src/pxx/src/pxx.cpp:184-198 | Commands NaN, velocities zero, backend at rest; every drive of the activation was listening and is stopping |
| SystemHardware.PxxSystemHardware.Read | ros2_ws/src/pxx/src/pxx.cpp:212-226 | Atomic: either all joint states stay as they were, or all are taken from one instant of the feedback history, angle and speed on one scale at the motor shaft; succeeds exactly when active and fault-free; for a drive that missed the start command the position is the seeded one |
| SystemHardware.PxxSystemHardware.Write | ros2_ws/src/pxx/src/pxx.cpp:228-237 | Hands the backend exactly the commands the controllers stored |
| SystemHardware.PxxSystemHardware.StoreAndWithdraw | ros2_ws/src/pxx/src/pxx.cpp:228-237 | A command stored and taken back to NaN before the next write: what is written has NaN for that joint, and the goal of its drive is what it was before |
| SystemHardware.PxxSystemHardware.Release | ros2_ws/src/pxx/src/pxx.cpp:171-175 | Every command becomes NaN and every velocity zero |
| SystemHardware.PxxSystemHardware.constructor | ros2_ws/src/pxx/src/pxx.cpp:124-127 | Commands start as NaN |
| MockMotor.MockWithinHalfACount | ros2_ws/src/pxx/src/mock_motor_backend.cpp:51-62 | For any sequence of write/read cycles with commands in range, an ideal drive at its goal reads back within half a count, divided by the size of the gear ratio, of what the mock reports |
| MockMotor.MirroredArm.Cycle | ros2_ws/src/pxx/src/mock_motor_backend.cpp:43-74 | One update of the mock and the SocketCAN backend under the same commands, with anything happening on the bus: wherever a drive has missed no frame, stands where it was sent and has been heard to, a read without a fault returns it within half a count, divided by the size of the gear ratio, of the mock if the joint was ever commanded, and at its seed where the mock says zero if it never was |
| MockMotor.MirroredArm.Runs | ros2_ws/src/pxx/src/mock_motor_backend.cpp:43-74 | The same after any number of updates since a common start; both backends have then acted on the same history of commands |
| MockMotor.MockMotorBackend.Read | ros2_ws/src/pxx/src/mock_motor_backend.cpp:43-63 | Each joint stands at its last claimed command since activation; over a positive period old position plus velocity times period is the new position for every joint, claimed or not, and otherwise velocity is zero; a non-finite period changes nothing |
| MockMotor.MockMotorBackend.Write | ros2_ws/src/pxx/src/mock_motor_backend.cpp:65-74 | Replaces all commands or none |
| MockMotor.MockMotorBackend.Activate | ros2_ws/src/pxx/src/mock_motor_backend.cpp:27-32 | Everything back to NaN and zero |
| MockMotor.MockMotorBackend.Deactivate | ros2_ws/src/pxx/src/mock_motor_backend.cpp:34-41 | Commands NaN and velocities zero; positions stay |
| Counts.CountsRoundTrip | ros2_ws/src/pxx/include/pxx/can.hpp:146-150 | Converting counts to radians and back is the identity on int32 |
| Counts.WithinHalfACountAtTheJoint | ros2_ws/src/pxx/include/pxx/can.hpp:146-150 | A command in range comes back within half a count divided by the size of the gear ratio, for either sign of it |
| Counts.RoundHalfAway | ros2_ws/src/pxx/include/pxx/can.hpp:147-150 | Halves of a count round away from zero on either side |
| Counts.OneRevolution | ros2_ws/src/pxx/include/pxx/can.hpp:146-151 | Positions and velocities share one scale: 7929856 counts are one turn |
| Counts.HalfATurn | ros2_ws/src/pxx/include/pxx/can.hpp:142-151 | Half a turn, as a double writes it, is 3964928 counts in both directions |
| Counts.InRangeIsExact | ros2_ws/src/pxx/include/pxx/can.hpp:147-150 | The value sent is the rounded command if and only if the rounded command fits an int32 |
| Counts.OverflowWraps | ros2_ws/src/pxx/include/pxx/can.hpp:147-150 | One count above the top of int32 the drive is sent the opposite extreme |
| PxxCan.PutLe | ros2_ws/src/pxx/include/pxx/can.hpp:163-168 | Writes exactly the little-endian bytes of the value and no other byte |
| PxxCan.GetLe | ros2_ws/src/pxx/include/pxx/can.hpp:170-177 | Reads the little-endian number stored there |
| PxxCan.LeAt | ros2_ws/src/pxx/include/pxx/can.hpp:163-168 | Byte i of the little-endian form is the value shifted right by 8i bits, cut to a byte |
| PxxCan.LeRoundTrip | ros2_ws/src/pxx/include/pxx/can.hpp:163-177 | Writing n bytes and reading them back keeps the value modulo 256^n |
| PxxCan.LeValueInverse | ros2_ws/src/pxx/include/pxx/can.hpp:163-177 | Reading bytes and writing the number back keeps the bytes |
| PxxCan.SignedRoundTrip | ros2_ws/src/pxx/include/pxx/can.hpp:226-233 | The cast of an int32 to uint32 and back is the identity |
| PxxCan.SdoWriteDecodes | ros2_ws/src/pxx/include/pxx/can.hpp:199-212 | A CiA 301 expedited-download decoder recovers node, object, size and value from the frame, for every size; no other node reacts |
| PxxCan.SdoReadDecodes | ros2_ws/src/pxx/include/pxx/can.hpp:214-223 | The same for an upload request |
| PxxCan.TargetPositionDecodes | ros2_ws/src/pxx/include/pxx/can.hpp:226-233 | Only its own node receives the target frame, with exactly its four bytes |
| PxxCan.NmtAndSyncDecode | ros2_ws/src/pxx/include/pxx/can.hpp:181-197 | An NMT command concerns one node, a SYNC every node |
| PxxCan.SdoKeyOfRequest | ros2_ws/src/pxx/src/socketcan_motor_backend.cpp:237-239 | The matching key a transaction takes from its request's bytes is the node, index and subindex the request was built from |
| PxxCan.MakeSdoWriteFrame | ros2_ws/src/pxx/include/pxx/can.hpp:199-212 | Filling the frame in place yields exactly the expedited download frame |
| PxxCan.MakeSdoReadFrame | ros2_ws/src/pxx/include/pxx/can.hpp:214-223 | Filling the frame in place yields exactly the upload request |
| PxxCan.MakeTargetPositionFrame | ros2_ws/src/pxx/include/pxx/can.hpp:226-233 | Filling the frame in place yields exactly the RPDO1 frame |
| PxxCan.MakeNmtFrame | ros2_ws/src/pxx/include/pxx/can.hpp:181-189 | Filling the frame in place yields exactly the NMT frame |
| PxxCan.HostFramesAreNotFeedback | ros2_ws/src/pxx/include/pxx/can.hpp:244-347 | No frame the host builds for nodes 1 to 127 is taken for feedback by any parser |
| PxxCan.ParsersAreExclusive | ros2_ws/src/pxx/include/pxx/can.hpp:244-347 | Every frame is accepted by at most one parser, so the order in the receive loop does not matter |
| PxxCan.ParsersAccept | ros2_ws/src/pxx/include/pxx/can.hpp:244-347 | Each parser accepts exactly the standard frames in its own range of identifiers that are long enough |
| PxxCan.CyclicBytes | ros2_ws/src/pxx/include/pxx/can.hpp:191-239 | Target position and SYNC frames byte by byte, for a positive and a negative target |
| PxxCan.MotionBytes | ros2_ws/src/pxx/include/pxx/can.hpp:297-313 | What is read from the eight bytes of a TPDO1 |
| PxxCan.StatusBytes | ros2_ws/src/pxx/include/pxx/can.hpp:318-347 | What is read from the bytes of a TPDO2 and of an emergency message |
| PxxCan.AnswerBytes | ros2_ws/src/pxx/include/pxx/can.hpp:244-258 | What is read from the bytes of an SDO answer and of a refusal |
| Drivetrain.VirtualDrivetrain.AlignedRun | ros2_ws/src/odesc/src/mock_drive_backend.cpp:44-64 | For every sequence of cycles whose commands are drained at once, from a common zero, for every non-zero gear ratio and distinct node ids below six: every frame is handed to the socket and the mock's reads are what its integration makes of the commands; if the socket took all frames and the commands fit float32, then at every report after which the emulator's clock has just published, the SocketCAN path reports exactly the mock's wheels through one float32 cast, and exactly the same if they fit float32 |
| Drivetrain.VirtualDrivetrain.Runs | ros2_ws/src/odesc/scripts/odesc_vcan_emulator.py:47-75 | The same for cycles with any drain delays: the positions are ahead of the mock's by the accumulated change of speed times delay; when the emulator has just published is a function of the pass durations alone |
| Drivetrain.VirtualDrivetrain.Run | ros2_ws/src/odesc/scripts/odesc_vcan_emulator.py:47-75 | One cycle: both sides over the same period, the clock after its passes, one frame per wheel offered; if the two agreed, all frames were taken and the commands fit float32, they agree again, the lag grown by the change of speed times the delay |
| Drivetrain.LagStaysIff | ros2_ws/src/odesc/scripts/odesc_vcan_emulator.py:49-65 | A cycle leaves the difference as it was if and only if the speed did not change or the commands were drained at once |
| Drivetrain.LateDrainLagsBehind | ros2_ws/src/odesc/scripts/odesc_vcan_emulator.py:49-65 | A concrete difference: one command of 1 rad/s drained half a second late leaves the path half a radian behind the mock |
| Drivetrain.VirtualDrivetrain.RunOneLateCycle | ros2_ws/src/odesc/scripts/odesc_vcan_emulator.py:49-65 | That difference as a run of both paths: after it the wheel stands half a radian behind the mock, and the host is told so at the next publication |
| Drivetrain.VirtualDrivetrain.RunSteadily | ros2_ws/src/odesc/src/socketcan_drive_backend.cpp:83-102 | A cycle at given wheel speeds over t seconds: each emulator node advances by turns that times 2 pi are speed times gear ratio times t |
| Drivetrain.NextPublication | ros2_ws/src/odesc/scripts/odesc_vcan_emulator.py:67-76 | The emulator publishes at 100 Hz: after a publication the next is in the first pass that ends at least a hundredth of a second later |
| Drivetrain.AlignedCyclesHaveNoLag | ros2_ws/src/odesc/scripts/odesc_vcan_emulator.py:54-65 | Without delay there is no difference, after any number of cycles |
| Drivetrain.ConversionRoundTrip | ros2_ws/src/odesc/src/mock_drive_backend.cpp:54-55 | Wheel to motor and back is the identity for every non-zero gear ratio |
| Drivetrain.OneMotorTurn | ros2_ws/src/odesc/src/socketcan_drive_backend.cpp:77-97 | One motor turn is 2 pi at the motor shaft, in both conversions and for every non-zero gear ratio |
| Drivetrain.IntegrationCommutes | ros2_ws/src/odesc/scripts/odesc_vcan_emulator.py:51-52 | Integrating in motor turns is integrating at the wheel |
| Drivetrain.WriteReachesItsWheel | ros2_ws/src/odesc/src/socketcan_drive_backend.cpp:95-100 | After the frames of one write are drained, each node turns at its own wheel's command and no other |
| Drivetrain.PublishReachesItsEstimate | ros2_ws/src/odesc/scripts/odesc_vcan_emulator.py:67-75 | After one publication is heard, each table entry holds its own node's estimate and no other |
| Drivetrain.MockDriveBackend.Read | ros2_ws/src/odesc/src/mock_drive_backend.cpp:44-64 | Every wheel turns at exactly its command and moves by command times period; a non-positive period moves nothing; a non-finite one is an error |
| Drivetrain.MockDriveBackend.Write | ros2_ws/src/odesc/src/mock_drive_backend.cpp:66-74 | Replaces all commands or none |
| Drivetrain.MockDriveBackend.Activate | ros2_ws/src/odesc/src/mock_drive_backend.cpp:28-33 | Everything back to zero |
| Drivetrain.MockDriveBackend.Deactivate | ros2_ws/src/odesc/src/mock_drive_backend.cpp:35-42 | Commands and velocities zero; positions stay |
| Drivetrain.SocketCanDriveBackend.Activate | ros2_ws/src/odesc/src/socketcan_drive_backend.cpp:33-48 | Table cleared, thread and flag up, every node asked for closed loop; a refused request is no error; if the socket cannot be opened nothing is sent |
| Drivetrain.SocketCanDriveBackend.Deactivate | ros2_ws/src/odesc/src/socketcan_drive_backend.cpp:50-63 | Every node asked to idle if open; closed and joined afterwards; nothing on an inactive backend |
| Drivetrain.SocketCanDriveBackend.RequestAxisStateAll | ros2_ws/src/odesc/src/socketcan_drive_backend.cpp:109-117 | One request per node in order, whatever is refused; true exactly when all were accepted |
| Drivetrain.SocketCanDriveBackend.Read | ros2_ws/src/odesc/src/socketcan_drive_backend.cpp:65-81 | Positions and velocities of all nodes converted to the wheel: wheel angle times gear ratio is 2 pi times the turns heard, and likewise for speeds |
| Drivetrain.SocketCanDriveBackend.Write | ros2_ws/src/odesc/src/socketcan_drive_backend.cpp:83-102 | One velocity frame per wheel in order, whatever is refused, asking its node for turns per second that times 2 pi are the command times the gear ratio; true exactly when all were accepted; nothing on a closed socket or a size mismatch |
| Drivetrain.SocketCanDriveBackend.Hear | ros2_ws/src/odesc/src/socketcan_drive_backend.cpp:119-135 | After any frames each entry is the last estimate received for its node |
| Drivetrain.LastEstimateCounts | ros2_ws/src/odesc/src/socketcan_drive_backend.cpp:119-134 | Of the frames heard the last estimate for a node decides, and without one its entry stays |
| Drivetrain.Emulator.Pass | ros2_ws/src/odesc/scripts/odesc_vcan_emulator.py:47-75 | One pass: old speeds integrate first, then the last velocity frame for a node counts, then the state is published if it is time |
| Drivetrain.Emulator.Drain | ros2_ws/src/odesc/scripts/odesc_vcan_emulator.py:54-65 | Of the drained frames the last velocity frame for a node counts; frames for other nodes and other commands change nothing |
| Drivetrain.LastVelocityCounts | ros2_ws/src/odesc/scripts/odesc_vcan_emulator.py:54-65 | Of the frames drained the last velocity for a node decides, and without one its speed stays |
| OdriveCan.IdPackingIsBijective | ros2_ws/src/odesc/include/odesc/can.hpp:92-103 | Packing and unpacking identifiers is a bijection between 64 nodes x 32 commands and 0..2047 |
| OdriveCan.FramesMeanWhatTheySay | ros2_ws/src/odesc/include/odesc/can.hpp:105-150 | Each side reads the other's frame for exactly its node and bit for bit; velocity, estimate and axis frames are never taken for one another |
| OdriveCan.ParseEncoderEstimate | ros2_ws/src/odesc/include/odesc/can.hpp:133-150 | Both words gathered in one loop are the little-endian words of the payload; short frames are none |
| OdriveCan.MakeInputVelocityFrame | ros2_ws/src/odesc/include/odesc/can.hpp:117-131 | Filling the frame in place yields exactly the velocity frame |
| OdriveCan.MakeAxisStateFrame | ros2_ws/src/odesc/include/odesc/can.hpp:105-115 | Filling the frame in place yields exactly the axis request |
| OdriveCan.OdriveBytes | ros2_ws/src/odesc/include/odesc/can.hpp:92-150 | Axis requests, velocity frames and estimates byte by byte |
| StreamSeeds.StreamSeedIsAPermutation | ros2_ws/src/perception/zed2i/src/synthetic_vio_node.cpp:55-62 | For every name, stream_seed permutes the 64-bit values; the inverse is given |
| StreamSeeds.StreamsCollideLikeHashes | ros2_ws/src/perception/zed2i/src/synthetic_vio_node.cpp:55-62 | For one run seed two names share a stream if and only if their FNV-1a hashes are equal |
| StreamSeeds.FourStreams | ros2_ws/src/perception/zed2i/src/synthetic_vio_node.cpp:171-177 | White noise, drift, faults and profile get pairwise different seeds for every run seed |
| StreamSeeds.MixIsInvertible | ros2_ws/src/perception/zed2i/src/synthetic_vio_node.cpp:59-61 | The finalizer and its inverse undo each other in both orders |
| StreamSeeds.FoldInverts | ros2_ws/src/perception/zed2i/src/synthetic_vio_node.cpp:59-61 | value ^ (value >> k) is undone by one more term, for every k of at least 22 |
| StreamSeeds.UnfoldInverts | ros2_ws/src/perception/zed2i/src/synthetic_vio_node.cpp:59-61 | and the other way round |
| StreamSeeds.TimesInverts | ros2_ws/src/perception/zed2i/src/synthetic_vio_node.cpp:59-60 | Multiplying by an odd constant modulo 2^64 is undone by its inverse |
| StreamSeeds.Fnv1a | ros2_ws/src/perception/zed2i/src/synthetic_vio_node.cpp:45-53 | The loop computes the hash defined character by character |
| StreamSeeds.WhiteNoiseHash | ros2_ws/src/perception/zed2i/src/synthetic_vio_node.cpp:173-173 | The hash of the name as a number |
| StreamSeeds.WhiteNoiseSeed | ros2_ws/src/perception/zed2i/src/synthetic_vio_node.cpp:55-62 | The stream seed of white noise for run seed 42 as a number |
| StreamSeeds.BytesXor | ros2_ws/src/perception/zed2i/src/synthetic_vio_node.cpp:49-49 | The arithmetic exclusive or agrees with the machine's on bytes |
| StreamSeeds.ShiftDivides | ros2_ws/src/perception/zed2i/src/synthetic_vio_node.cpp:59-61 | Shifting right by k divides by 2^k |
| DelayedDelivery.SyntheticVio.TruthCallback | ros2_ws/src/perception/zed2i/src/synthetic_vio_node.cpp:225-275 | Zero stamps change nothing; otherwise the latest stamp is the running maximum and elapsed time is it minus the first, a stamp from the past changes neither drift nor elapsed time, a dropped message queues nothing, and one that is not is queued for its stamp plus the latency before everything due at the stamp, and nothing else, is published at the time of the stamp |
| DelayedDelivery.AnyCalls | ros2_ws/src/perception/zed2i/src/synthetic_vio_node.cpp:225-341 | After any sequence of truth messages and timer calls to a new node, every message published went out in one of these calls, at its time, and not before its release; what is pending is what the calls left |
| DelayedDelivery.OneDelayed | ros2_ws/src/perception/zed2i/src/synthetic_vio_node.cpp:269-274 | With 150 ms of latency a message stamped at one second goes out at 1.15 s, not a nanosecond earlier |
| DelayedDelivery.TwoStamps | ros2_ws/src/perception/zed2i/src/synthetic_vio_node.cpp:243-251 | Elapsed time is in seconds: two and a half between stamps of 1 and 3.5 seconds, none the other way round |
| DelayedDelivery.SyntheticVio.PublishDueMessages | ros2_ws/src/perception/zed2i/src/synthetic_vio_node.cpp:335-341 | Publishes exactly the due messages at the front, in order; with sorted release times nothing due stays pending |
| DelayedDelivery.NothingDueStaysBehindIffSorted | ros2_ws/src/perception/zed2i/src/synthetic_vio_node.cpp:335-341 | Publishing leaves nothing due behind at every time if and only if release times do not decrease along the queue |
| DelayedDelivery.MonotoneStampsSort | ros2_ws/src/perception/zed2i/src/synthetic_vio_node.cpp:269-273 | Release times are sorted if and only if accepted stamps are |
| DelayedDelivery.LatestIsMaximum | ros2_ws/src/perception/zed2i/src/synthetic_vio_node.cpp:243-251 | The running maximum is one of the stamps and bounds them all |
| Angles.WrapAngle | ros2_ws/src/perception/zed2i/include/zed2i/geometry_utils.hpp:26-35 | Both loops end for every angle; the result lies in (-pi, pi] and differs by whole turns |
| Angles.WrapIsUnique | ros2_ws/src/perception/zed2i/include/zed2i/geometry_utils.hpp:26-35 | It is the only such value |
| Angles.WrapOfSum | ros2_ws/src/perception/zed2i/include/zed2i/geometry_utils.hpp:26-35 | Wrapping a sum equals wrapping the sum of the wrapped summands |
| Angles.MeasurementKeepsYaw | ros2_ws/src/perception/zed2i/src/synthetic_vio_node.cpp:287-289 | Without scale error, drift and noise the reported yaw is the true yaw, wrapped |
| Angles.WrapIsIdempotent | ros2_ws/src/perception/zed2i/include/zed2i/geometry_utils.hpp:26-35 | Wrapping twice is wrapping once |
| Angles.FourRadians | ros2_ws/src/perception/zed2i/include/zed2i/geometry_utils.hpp:26-35 | Four radians, either way, are wrapped to four less a full turn |

## Left out

- `socket`, `ioctl`, `bind`, `poll` and byte-level reads of both SocketCAN transports: an abstract bus that may refuse, delay or lose frames.
- `on_init` parameter parsing, interface export, logging, error strings, `SdoAbortText`, `ErrorCodeText`: text only; the validated ranges are preconditions.
- SDO traffic other than the host's own (segmented transfer, other masters), CAN error frames, extended identifiers.
- Brake behaviour, motion control inside the drive, and how position follows target: position moves arbitrarily.
- Restart of a drive, NMT reset commands and boot-up messages.
- Wall-clock durations: the 100 ms SDO limit and the receive poll are nondeterministic; the emulator's clock is a parameter.
- IEEE-754 rounding, and `lround` beyond 64 bits.
- Gaussian and uniform sampling, covariance formulas, quaternion trigonometry: noise and drift are arbitrary.
- The odesc plugin class: its calls only forward to the backend.
- ROS launch files, URDF, configurations, the GNSS node, path planning and joystick teleoperation: no algorithmic state worth a proof here.
- The RPDO1 mappings a drive may accept are 607Ah and 6060h; TPDOs may map 6064h, 606Ch, 6041h and 603Fh.
- `Listening`: while the main thread holds the SDO mutex the model lets other drives' frames through where the real thread would wait; that only adds behaviours.
- Counts.RadToCounts: works on exact reals, because rounding of the product is not the point; the wrap of the cast to int32 is modelled.
- MotorBackend.SocketCanMotorBackend.CheckStatus: returns the error code instead of putting it into the error text.
- Drivetrain.VirtualDrivetrain.Runs: compares at the moments the emulator has just published; between publications the host's table is up to one interval old.
