# Verification model of the White Rabbit PTP daemon

A Dafny model of the White Rabbit extension of an IEEE 1588-2008 daemon, and proofs about it. Code
that changes an object step by step is a class whose methods are proved equal to a function on
snapshots; what the daemon promises is then proved about those functions, over all inputs and whole
runs.

| file | models | main results |
|---|---|---|
| `WrFsm`, `WrPort` | WR link-setup FSM and PTP port FSM, as step functions and as an object | the bridge between the two: the object computes the step function |
| `WrCoupling` | how the two state machines stay in step | kept by a step iff no LOCK message is lost |
| `WrTermination` | a WR slave session | bounded number of timer expiries, stalls iff the timeout is zero |
| `WrChain`, `WrLossyLink`, `WrRoles` | two nodes, network that loses, duplicates, delays, reorders | causal chain behind a completed setup, and why its premise is needed |
| `WrAgreement`, `WrFifoLink`, `WrProgress` | two nodes, lossless FIFO link | progress, never stuck, agreement |
| `WrCalibration`, `WrDelays` | calibration of one node, and of two over a setup | CALIBRATED carries the last measurements; they reach the other servo |
| `WrGiveUp` | timeouts, repetitions, giving up | given up exactly when the repetitions are used up |
| `WrModes`, `PortEvents` | WR mode, decisions, faults, announce timeouts | WR mode has its own link setup as cause |
| `WrLoss` | two nodes after a loss | which lost message ends a setup whatever the retries |
| `Timer` | interval timers | no burst of expiries |
| `Bmc`, `BestScan`, `StateDecision` | best master clock algorithm | exact comparison and exact decision by attributes, one primary slave |
| `ForeignTable` | foreign-master table | bounded FIFO of distinct masters, holding what was announced |
| `WrTime`, `LinkModel` | servo timestamps, asymmetric link model | exact arithmetic, offset within 1.5 ps |
| `Servo`, `ServoRuns` | six-state servo | timing output safety, setpoint follows the link delay |
| `ServoLoop` | the servo with an ideal actuator | from which offsets and setpoints it settles, and from which never |
| `Pairing`, `PairingRuns` | Sync, Follow_Up, Delay_Req, Delay_Resp | every update uses stamps of one exchange |
| `Linearize` | receive timestamp linearization | exact for every instant |
| `PacketRing` | packet queue of a freestanding socket | FIFO of packets |
| `Arith` | seconds and nanoseconds arithmetic | exact conversion, unique normal form |
| `Codec` | message layout | what is packed is what is unpacked |
| `CTypes` | fixed-width integers and C division | |

Inputs from outside the daemon are parameters: poll results and send outcomes of the hardware (`Hw`),
what is received and when (`Env`), the millisecond counter, and, in the servo, the three polls. An
integer that wraps in C wraps in the model; where C would overflow a signed type, a precondition
names the range.

Where code and documentation differ, the model follows the code: `stepsRemoved` travels
little-endian, the variance is compared by its first byte in memory, leaving SLAVE clears `wrMode` so
that re-synchronisation of a slave ends in plain SLAVE, TRACK_PHASE overrides its own fallback, an
Announce without a WR suffix leaves the flags of the stored record as they were, an Announce of the
parent is written over the best record even when the table is empty, and a clock that equals the best
record is passive without the action that the decision algorithm names.

Properties that hold only under a condition are stated as equivalences with that condition: a LOCK
message that cannot be sent (`WrCoupling.DoStateKeepsCoupling`), the two blind spots of the record
comparison (`Bmc.CompareIsLexicographic`), delays from 2^31 ps (`Codec.FixedDelaysArrive`), phases not
divisible by 125 ps (`Codec.PhaseThroughCf`), a reader's buffer that is too small
(`PacketRing.SockQueue.Receive`), a setpoint left in the actuator
(`ServoLoop.ServoSettlesExactlyWhen`), a zero state timeout (`WrTermination.StallsExactlyWhen`), whole
wraps of a sequence number (`PairingRuns.FollowUpAcceptance`), a request counter that just wrapped
(`PairingRuns.ResponseAcceptance`), and seconds from 2038 on (`PairingRuns.WireExactlyUntil2038`).

## Model

| member | source | states |
|---|---|---|
| `WrPort.PtpPort.DoState` | PTPWRd/protocol.c:476-710 | Bridge: one turn of the port object, in place, is the step function that all protocol results are about. The other rows of this object are its parts. |
| `WrPort.PtpPort.Decide` | PTPWRd/protocol.c:483-580 | The state decision event: new role and parent, the detour of a SLAVE recommendation through UNCALIBRATED, re-synchronisation, and no pre-emption of a running WR FSM. |
| `WrPort.PtpPort.DoListening` | PTPWRd/protocol.c:607-658 | LISTENING, PASSIVE and SLAVE: receive, and on an announce timeout drop WR mode and become master or listen. |
| `WrPort.PtpPort.DoMaster` | PTPWRd/protocol.c:660-700 | MASTER: either the WR FSM runs, or the port receives and sends; a slave-only clock goes back to LISTENING. |
| `WrPort.PtpPort.DoInit` | PTPWRd/protocol.c:431-471 | Re-initialisation from any state. |
| `WrPort.PtpPort.ToState` | PTPWRd/protocol.c:214-427 | Entering a PTP state: refused while the WR FSM runs; leaving SLAVE forgets WR mode; UNCALIBRATED starts WR only towards a WR master and otherwise ends in SLAVE. |
| `WrPort.PtpPort.Handle` | PTPWRd/protocol.c:716-838 | What one received message or receive error does to the port. |
| `WrPort.PtpPort.HandleSignaling` | PTPWRd/protocol.c:1585-1658 | A signaling message is stored in the mailbox; a PTP master answers SLAVE_PRESENT by becoming WR master in M_LOCK. |
| `WrPort.PtpPort.UnpackWrSignalingMsg` | PTPWRd/dep/msg.c:783-895 | The mailbox and the other node's calibration members after a valid message. |
| `WrPort.PtpPort.IssueWrSignalingMsg` | PTPWRd/protocol.c:1861-1905 | A message is sent, or an empty packet outside of WR mode, or the port goes FAULTY if its WR FSM is idle. |
| `WrPort.PtpPort.DoWrState` | PTPWRd/wr_protocol.c:269-608 | One step of the WR FSM: the state's actions, then its timer. |
| `WrPort.PtpPort.WrActions` | PTPWRd/wr_protocol.c:282-602 | The big switch over the main states. |
| `WrPort.PtpPort.DoSLock` | PTPWRd/wr_protocol.c:312-393 | The three locking substates falling through as far as the hardware accepts. |
| `WrPort.PtpPort.DoCalibration` | PTPWRd/wr_protocol.c:415-509 | The calibration substates; the last one reports CALIBRATED and moves on. |
| `WrPort.PtpPort.CalibrationSteps` | PTPWRd/wr_protocol.c:415-500 | The substate reached by falling through, in terms of which hardware calls succeed; the Tx poll result is in deltaTx and the Rx poll result in deltaRx. |
| `WrPort.PtpPort.CalibrateTx` | PTPWRd/wr_protocol.c:415-468 | The transmission half: stops exactly at the first call that fails, and stores the Tx poll result in deltaTx and nowhere else. |
| `WrPort.PtpPort.CalibrateRx` | PTPWRd/wr_protocol.c:469-500 | The reception half: stores the Rx poll result in deltaRx and nowhere else. |
| `WrPort.PtpPort.DoRespCalibReq` | PTPWRd/wr_protocol.c:522-571 | Responding to a calibration request, through four substates. |
| `WrPort.PtpPort.RespFinish` | PTPWRd/wr_protocol.c:551-571 | Leaving towards CALIBRATION as slave and WR_LINK_ON as master. |
| `WrPort.PtpPort.ToWrState` | PTPWRd/wr_protocol.c:613-937 | A transition: leaving IDLE re-initialises, the target's tasks run, timers move. |
| `WrPort.PtpPort.EnterWrState` | PTPWRd/wr_protocol.c:705-930 | The tasks of every main state on entry, and the message each one sends. |
| `WrPort.PtpPort.EnterCalibration` | PTPWRd/wr_protocol.c:777-833 | Entering CALIBRATION: CALIBRATE is sent, the timeout follows calPeriod. |
| `WrPort.PtpPort.EnterRespCalibReq` | PTPWRd/wr_protocol.c:841-888 | Entering RESP_CALIB_REQ: the timeout follows the other node's period when it sends a pattern. |
| `WrPort.PtpPort.WrTimeoutManage` | PTPWRd/wr_protocol.c:160-183 | Repetition counter and timers: the timer of the state left is stopped, that of the state entered started. |
| `WrPort.PtpPort.WrTimerExpired` | PTPWRd/wr_protocol.c:185-231 | On expiry the state is repeated while the retry budget of that state lasts; else WR is given up. |
| `WrPort.PtpPort.Abandon` | PTPWRd/wr_protocol.c:210-228 | Giving up: IDLE, then DISABLED, MASTER or SLAVE, and all WR data reset. |
| `WrPort.PtpPort.InitWrData` | PTPWRd/wr_protocol.c:940-1003 | Both modes of initialisation. |
| `WrCoupling.DoStateKeepsCoupling` | PTPWRd/protocol.c:476-710 | For every port and every input: a step keeps the two state machines coupled (idle and not UNCALIBRATED, or a slave session in UNCALIBRATED, or a master session in MASTER) if and only if it does not lose a LOCK message on leaving IDLE. |
| `WrCoupling.LostLockIsStuck` | PTPWRd/protocol.c:1867-1869 | A port that lost its LOCK message is FAULTY with a running WR FSM, and no later step changes it at all. |
| `WrCoupling.DoInitCouples` | PTPWRd/protocol.c:431-471 | Initialisation couples the machines from any state. |
| `WrCoupling.RunStaysCoupled` | PTPWRd/protocol.c:214-367 | Coupling holds in every state of every run, with initialisations at any time, in which no LOCK is lost. |
| `WrTermination.SessionStep` | PTPWRd/wr_protocol.c:160-231 | Whatever arrives, a slave session ends or stays a session with its timer armed, never moves backward, and an expiry strictly uses up its finite allowance (stages left, then retries left). |
| `WrTermination.SessionStarts` | PTPWRd/protocol.c:329-386 | Entering WRS_PRESENT starts a slave session with its timer armed and the default timeouts; with a state timeout that is not zero its allowance is given in closed form. |
| `WrTermination.StallsExactlyWhen` | PTPWRd/wr_protocol.c:160-231 | From any port about to start a session: some run inside that session ends in a state that no time, hardware or other message can change, if and only if the configured state timeout is zero. |
| `WrTermination.ZeroTimeoutStalls` | PTPWRd/wr_protocol.c:405-413 | With a zero timeout every session that hears its LOCK and locks its PLL stalls in WRS_LOCKED. |
| `WrTermination.SessionNeverStalls` | PTPWRd/wr_protocol.c:185-231 | With all timers set, a session is moved by time alone at the deadline of its main state. |
| `WrTermination.SessionsEnd` | PTPWRd/wr_protocol.c:160-231 | In any run inside one session, timer expiries stay strictly below the first allowance: a session ends after boundedly many expiries. |
| `WrTermination.RepeatState` | PTPWRd/wr_protocol.c:196-207 | A repetition re-arms the timer and costs exactly one unit of allowance. |
| `WrTermination.ForwardMove` | PTPWRd/wr_protocol.c:613-937 | A transition to a later main state keeps the session and uses up allowance. |
| `WrChain.NodeStep` | PTPWRd/wr_protocol.c:282-597 | What a single node did and sent is always explained by what it heard before, in either WR role and any PTP state, for every input; the master node does not enter WRS_PRESENT and the slave node hears no SLAVE_PRESENT. |
| `WrLossyLink.CausalChain` | PTPWRd/wr_protocol.c:282-597 | On a link that loses, duplicates, delays and reorders but never forges, for any configurations and decisions under which the master node never enters WRS_PRESENT: slave in WR_LINK_ON, master in WR_LINK_ON, slave sent CALIBRATED, master sent CALIBRATED, slave passed S_LOCK and sent LOCKED, master sent LOCK, slave sent SLAVE_PRESENT - each for the first time at a strictly earlier time. |
| `WrLossyLink.StepKeepsLinkInv` | PTPWRd/wr_protocol.c:282-597 | Every event on the link keeps both nodes explained by messages really sent. |
| `WrLossyLink.OutboxGrows` | PTPWRd/protocol.c:476-710 | A step never takes back a message. |
| `WrRoles.ExchangedRolesBreakChain` | PTPWRd/protocol.c:329-386 | That premise is needed: any two fresh nodes configured for both roles have a run in which the master node becomes WR slave and the slave node enters WR_LINK_ON although the master node never did. |
| `WrFifoLink.TurnAdvances` | PTPWRd/wr_protocol.c:282-597 | On a lossless FIFO link without timer expiry, every turn keeps the joint state in one of seventeen phases with exactly known messages in flight, never falls back, and moves on if it is a willing turn of the node whose turn it is. |
| `WrProgress.NeverStuck` | PTPWRd/wr_protocol.c:282-597 | In every joint state before completion, at any time at which the timeouts last, the node whose turn it is has a step that the link allows and that moves the handshake on. |
| `WrProgress.OrdinaryTimeoutsLast` | PTPWRd/wr_protocol.c:777-888 | Timeouts that are not negative and periods below 2^31 last, at any time that is not about to wrap. |
| `WrProgress.CanFinishAt` | PTPWRd/wr_protocol.c:613-932 | From every joint state of a setup, at every time at which its timeouts last, a run at that time of at most as many turns as phases are left completes it in agreement. |
| `WrProgress.EagerKeepsLasts` | PTPWRd/wr_protocol.c:160-183 | Every turn of that run keeps the premises of the next: new timers, received periods and messages in flight included. |
| `WrProgress.OrdinarySetupLasts` | PTPWRd/wr_protocol.c:777-888 | Timeouts that are not negative and periods below 2^31 satisfy the premise, at any time that is not about to wrap. |
| `WrProgress.CanFinish` | PTPWRd/wr_protocol.c:613-932 | At the origin of time no premise on the timeouts is needed for that. |
| `WrProgress.UnheardIsUnread` | PTPWRd/wr_protocol.c:269-608 | A message that a step does not read is as if it had not come, which is why the link keeps it. |
| `WrFifoLink.SetupStarts` | PTPWRd/protocol.c:329-386 | Entering UNCALIBRATED towards an idle WR master produces the start state of the runs below. |
| `WrFifoLink.SetupAgrees` | PTPWRd/wr_protocol.c:613-932 | Sixteen willing turns, interleaved with anything quiet, complete the setup; when the slave is done both nodes are in WR mode and each stores the other's fixed delays. |
| `WrLoss.DeadUntilGivenUp` | PTPWRd/wr_protocol.c:160-231 | After such a loss, in any run, whatever is repeated, delivered late or decided, the first thing that happens is that a node gives WR up. |
| `WrLoss.LostMasterCalibrated` | PTPWRd/wr_protocol.c:835-839 | The loss of the master's CALIBRATED leaves both nodes waiting for messages that are not on the link. |
| `WrLoss.LostSlaveCalibrated` | PTPWRd/wr_protocol.c:835-839 | So does the loss of the slave's CALIBRATED. |
| `WrLoss.LostModeOn` | PTPWRd/wr_protocol.c:573-597 | So does the loss of WR_MODE_ON, since the master has already left WR_LINK_ON. |
| `WrLoss.DeadIsNotDone` | PTPWRd/wr_protocol.c:511-549 | As long as such a pair is dead, its slave is still calibrating, in UNCALIBRATED. |
| `WrLoss.WaitStep` | PTPWRd/wr_protocol.c:511-549 | A node that waits for CALIBRATE, CALIBRATED or WR_MODE_ON and does not hear it waits on or gives up, and sends nothing. |
| `WrLoss.OverStep` | PTPWRd/protocol.c:476-710 | A master that is done and hears nothing sends nothing but SLAVE_PRESENT, whatever it decides. |
| `WrAgreement.OnlyHandleReads` | PTPWRd/wr_protocol.c:269-608 | Substates that do not call handle are independent of what was received. |
| `WrAgreement.LockStep` | PTPWRd/wr_protocol.c:312-393 | A quiet step in S_LOCK: what is kept, what is sent, and when it leaves. |
| `WrAgreement.CalibrationStep` | PTPWRd/wr_protocol.c:415-509 | A quiet step in CALIBRATION sends CALIBRATED with exactly the delays it then holds, and leaves if all polls succeed. |
| `WrAgreement.RespAwaitStep` | PTPWRd/wr_protocol.c:522-549 | A quiet step that waits for CALIBRATED stores the delays it carries. |
| `WrCalibration.StopsAtFirstFailure` | PTPWRd/wr_protocol.c:415-500 | A turn makes the eight hardware calls in their order, from its substate exactly to the first one that fails. |
| `WrCalibration.CalibrationTurn` | PTPWRd/wr_protocol.c:415-509 | For every port in CALIBRATION and every input, timer included: the delays measured in this turn end up in the member of their own direction and nowhere else, and CALIBRATED with exactly both delays goes out if and only if all remaining calls succeed. |
| `WrCalibration.ReportsLastMeasurements` | PTPWRd/wr_protocol.c:439-507 | Over any number of turns and repetitions: CALIBRATED carries the last Tx and the last Rx poll result that were accepted, each in its own member. |
| `WrCalibration.SessionStartsFresh` | PTPWRd/wr_protocol.c:940-1003 | A setup starts with the stored Tx and Rx calibration of the port if it requires none, else with none, and knows nothing of the other node. |
| `WrCalibration.EntersCalibration` | PTPWRd/wr_protocol.c:777-833 | CALIBRATE says what the node does next: one that is calibrated asks for no pattern and starts at the measurement. |
| `WrCalibration.EntersLocking` | PTPWRd/wr_protocol.c:725-756 | S_LOCK is entered beyond the call that enables locking if and only if that call succeeds. |
| `WrCalibration.LockTurn` | PTPWRd/wr_protocol.c:312-393 | A turn in S_LOCK, timer included: LOCKED only with the PLL found locked and locking disabled. |
| `WrCalibration.LockedMeansLocked` | PTPWRd/wr_protocol.c:312-393 | Over any number of turns and repetitions: a slave that goes on to LOCKED has found its PLL locked in some turn of that stay. |
| `WrCalibration.LockIsTaken` | PTPWRd/wr_protocol.c:301-308 | A LOCK that is taken does not stay in the mailbox. |
| `WrCalibration.AwaitsCalibrated` | PTPWRd/wr_protocol.c:522-555 | Having heard CALIBRATED, a node that sent a pattern switches it off before it leaves; without it the node stays. |
| `WrCalibration.PatternOffFirst` | PTPWRd/wr_protocol.c:551-571 | The last substates: no leaving while the pattern is on, and where each role goes. |
| `WrDelays.MeasuredDelaysArrive` | PTPWRd/wr_protocol.c:415-549 | Whenever the slave of a setup is done, the servo of either node reads back exactly the Tx and the Rx delay that the other one measured last, each if and only if it is below 2^31 ps. |
| `WrGiveUp.EntryTimer` | PTPWRd/wr_protocol.c:160-183 | Every entry of a main state starts its timer: 1 s in PRESENT, 10 s while locking, the own or the other node's calibration period while calibrating, the configured timeout elsewhere. |
| `WrGiveUp.RequestHonoured` | PTPWRd/wr_protocol.c:841-888 | A node that is asked to calibrate waits, repeats and sends a pattern as the asking node demanded. |
| `WrGiveUp.SilentTurn` | PTPWRd/wr_protocol.c:160-231 | One turn in which nothing happens: wait, repeat the state with a fresh timer and its message, or give up. |
| `WrGiveUp.GivesUpExactlyWhen` | PTPWRd/wr_protocol.c:185-231 | While nothing happens, a port stays in its main state if and only if its timer expired at most as often as that state may be repeated; with the next expiry it is idle, out of WR mode and PTP master, slave or disabled as configured. |
| `WrGiveUp.BearsSilence` | PTPWRd/wr_protocol.c:185-231 | It has then been in that state for at least its timeout times one more than its repetitions. |
| `WrGiveUp.SendsOnlyRepetitions` | PTPWRd/wr_protocol.c:196-207 | Meanwhile it sends the message of that state once for each expiry it survives, and nothing else. |
| `WrGiveUp.SessionWaits` | PTPWRd/protocol.c:329-386 | For example a slave that nobody answers, from its entry of PRESENT. |
| `WrGiveUp.UnansweredIdles` | PTPWRd/wr_protocol.c:296-309 | Until LOCK is heard nothing happens in PRESENT, whatever the hardware reports. |
| `WrModes.TurnModes` | PTPWRd/protocol.c:476-710 | One turn: WR mode stays on only in the same role, and is switched on only by the step from the last state before WR_LINK_ON. |
| `WrModes.ModeOnHasCause` | PTPWRd/wr_protocol.c:573-597 | Whenever a port is in WR mode in a run, it entered WR_LINK_ON from the last state of a setup of its own and has been in WR mode in that role ever since. |
| `PortEvents.SlaveDecision` | PTPWRd/protocol.c:483-580 | A port decided to be slave starts a link setup if and only if it may be WR slave and its new parent WR master; else it is a plain slave. |
| `PortEvents.OtherDecision` | PTPWRd/protocol.c:483-580 | Any other state is entered with the decided role and parent; leaving SLAVE leaves WR mode. |
| `PortEvents.SameDecision` | PTPWRd/protocol.c:545-572 | A slave whose own or parent's WR mode is off on a live link synchronises anew, and ends as plain slave. |
| `PortEvents.NoPreemption` | PTPWRd/protocol.c:483-490 | A running link setup is not interrupted by a decision. |
| `PortEvents.NoPreMaster` | PTPWRd/protocol.c:329-427 | PRE_MASTER is never entered. |
| `PortEvents.AnnounceLost` | PTPWRd/protocol.c:619-646 | Without Announce messages a port leaves WR mode and becomes master; only a slave-only port or clock listens instead. |
| `PortEvents.ConfigSettles` | PTPWRd/protocol.c:600-700 | A slave-only port or clock does not stay master, a master-only port does not listen. |
| `PortEvents.NotUncalibratedForNothing` | PTPWRd/protocol.c:596-605 | A port that is not WR slave does not stay UNCALIBRATED. |
| `PortEvents.FaultStops` | PTPWRd/protocol.c:590-658 | A fault makes an idle port FAULTY, out of WR mode, and initialised next; a running setup ignores it. |
| `PortEvents.Mailbox` | PTPWRd/protocol.c:1585-1658 | Own messages and those without a WR TLV leave the mailbox as it was. |
| `PortEvents.AnswersWhen` | PTPWRd/protocol.c:1640-1658 | SLAVE_PRESENT is answered if and only if the port is PTP master and may be WR master. |
| `PortEvents.NothingOutsideWr` | PTPWRd/protocol.c:1861-1905 | No signaling message leaves a port outside of WR mode, and a failed transmission faults an idle port only. |
| `PortEvents.InitForgets` | PTPWRd/protocol.c:431-471 | After initialisation everything about WR is determined by the configuration and the stored calibration. |
| `PortEvents.LinkIsOn` | PTPWRd/wr_protocol.c:890-930 | Entering WR_LINK_ON: own and parent's WR mode on, and WR_MODE_ON from a master. |
| `PortEvents.StartForgetsParent` | PTPWRd/wr_protocol.c:940-1003 | A setup starts without knowing its parent. |
| `Timer.TimerStart` | PTPWRd/dep/timer.c:15-19 | The timer counts from now. |
| `Timer.TimerStop` | PTPWRd/dep/timer.c:21-24 | The timer is stopped. |
| `Timer.TimerExpired` | PTPWRd/dep/timer.c:26-45 | Whether the deadline has passed, and that a fired timer counts from now on. |
| `Timer.NoBurst` | PTPWRd/dep/timer.c:26-45 | After firing, a timer fires again exactly one interval after it was polled, however late the poll. |
| `Codec.PackHeader` | PTPWRd/dep/msg.c:93-127 | The header bytes that identify the port on all its messages. |
| `Codec.HeaderFormat` | PTPWRd/dep/msg.c:48-64 | The byte of each header field; of the flags only the two-step bit is kept. |
| `Codec.PackAnnounce` | PTPWRd/dep/msg.c:181-237 | Unpacking the packed Announce returns every field, whatever the receiving record held; the WR flags arrive exactly when the configuration adds the suffix, and otherwise the record keeps stale flags. |
| `Codec.PackAnnounceBody` | PTPWRd/dep/msg.c:194-211 | Unpacking the body returns all its fields (stepsRemoved is little-endian on both sides). |
| `Codec.AnnounceFormat` | PTPWRd/dep/msg.c:194-211 | The byte of each field of an Announce, both ways. |
| `Codec.PackWrSuffix` | PTPWRd/dep/msg.c:217-238 | The TLV is recognised by the receiver although organization and magic number are split over three words. |
| `Codec.FlagsFormat` | PTPWRd/constants.h:101-103 | Which bits of the flags say what. |
| `Codec.OtherFlagsIgnored` | PTPWRd/bmc.c:210-218 | Other flag bits do not matter to a receiver. |
| `Codec.FlagsRoundTrip` | PTPWRd/dep/msg.c:228-237 | A receiver decodes from the flags exactly the sender's configuration, calibration and WR mode. |
| `Codec.PackSignaling` | PTPWRd/dep/msg.c:668-780 | Unpacking a packed signaling message returns the message that the members of the port make, its addressee, its sender and its length; outside WR mode nothing is packed. |
| `Codec.PackMessage` | PTPWRd/dep/msg.c:687-776 | The signaling TLV with its content decodes to the message. |
| `Codec.PackContent` | PTPWRd/dep/msg.c:719-770 | The contents of CALIBRATE and CALIBRATED come back unchanged. |
| `Codec.TlvFormat` | PTPWRd/dep/msg.c:687-700 | The eight bytes that mark a White Rabbit TLV, and no others. |
| `Codec.SignalingFormat` | PTPWRd/dep/msg.c:687-776 | A packet decodes to one of the six messages if and only if it has the bytes of that message. |
| `Codec.FixedDelaysArrive` | PTPWRd/dep/wr_servo.c:190-194 | Split, sent in CALIBRATED, accepted and joined by the peer's servo, a fixed delay is unchanged if and only if it is below 2^31 ps. |
| `Codec.PhaseThroughCf` | PTPWRd/protocol.c:1133-1136 | A phase in [0, 32767999] sent in the correction field returns as p or p-1, and as p if and only if 125 divides it. |
| `Codec.LongPhaseIsLost` | PTPWRd/protocol.c:1133-1136 | Every longer phase overflows the field and returns wrong by more than that. |
| `Arith.NormalIsUnique` | PTPWRd/arith.c:130-145 | A time has only one sign-consistent form. |
| `Arith.NormalizeTime` | PTPWRd/arith.c:130-145 | The result is that form of the same total. |
| `Arith.AddTime` | PTPWRd/arith.c:147-153 | Exact addition, also when the result overwrites an operand. |
| `Arith.SubTime` | PTPWRd/arith.c:155-161 | Exact subtraction, also when the result overwrites an operand. |
| `Arith.AddSubLaws` | PTPWRd/arith.c:147-161 | On normal operands addition commutes and subtraction undoes it. |
| `Arith.NormalSumsFit` | PTPWRd/arith.c:147-153 | Normal operands whose seconds sum fits never overflow inside addTime. |
| `Arith.Integer64ToInternalTime` | PTPWRd/arith.c:6-88 | For every two-limb value but -2^63: exactly the value divided by 2^16 toward zero, normalised, with no intermediate overflow. |
| `Arith.FromPositive` | PTPWRd/arith.c:29-68 | The same for non-negative values, limb by limb. |
| `WrTime.PicosToTs` | PTPWRd/dep/wr_servo.c:53-66 | The parts add up to the given picoseconds and are canonical when it is not negative. |
| `WrTime.TsAdd` | PTPWRd/dep/wr_servo.c:69-94 | The carry loops end with the closed form of the sum. |
| `WrTime.TsSub` | PTPWRd/dep/wr_servo.c:97-123 | The borrow loops end with the closed form of the difference. |
| `WrTime.SumTsExact` | PTPWRd/dep/wr_servo.c:69-94 | Addition preserves total picoseconds, and keeps canonical operands canonical. |
| `WrTime.DiffTsExact` | PTPWRd/dep/wr_servo.c:97-123 | Subtraction preserves total picoseconds, leaves no negative part below seconds, and is canonical when no part of the difference exceeds its unit. |
| `WrTime.AddSubInverse` | PTPWRd/dep/wr_servo.c:69-123 | On canonical timestamps the two undo each other. |
| `WrTime.Hardwarize` | PTPWRd/dep/wr_servo.c:126-161 | Total picoseconds are preserved. |
| `WrTime.HardwarizeExact` | PTPWRd/dep/wr_servo.c:126-161 | For canonical input and a cycle that divides a second: nanoseconds are whole cycles, and seconds and nanoseconds vanish together exactly for offsets within one cycle. |
| `LinkModel.DelayMsExact` | PTPWRd/dep/wr_servo.c:301-311 | For a round trip below 2^32 ps no 64-bit operation overflows or wraps, and the manual adjustment is added exactly. |
| `LinkModel.OffsetError` | PTPWRd/dep/wr_servo.c:301-311 | On a link that obeys the alpha relation, the computed offset, less the manual adjustment, is within 1.5 ps of the true clock difference. |
| `LinkModel.SteersOnClockDifference` | PTPWRd/dep/wr_servo.c:301-316 | The hardwarized reading of an update is the clock difference, as adjusted, to 1.5 ps, in whole cycles, and its seconds and nanoseconds vanish together exactly within one cycle. |
| `LinkModel.OffsetExact` | PTPWRd/dep/wr_servo.c:306-316 | The offset is t1 - t2 plus the computed delay, exactly. |
| `Servo.WrServo.Init` | PTPWRd/dep/wr_servo.c:174-219 | A failed calibration read changes nothing; else SYNC_TAI with the joined deltas, no misses and the timing output off. |
| `Servo.WrServo.GotSync` | PTPWRd/dep/wr_servo.c:239-250 | t1 and t2 are stored with their validity. |
| `Servo.WrServo.GotDelay` | PTPWRd/dep/wr_servo.c:253-264 | t3 and t4 are stored; the phase of t4 comes from the correction field. |
| `Servo.WrServo.Update` | PTPWRd/dep/wr_servo.c:266-438 | One update in place: nothing without four valid stamps, else the control step on the computed offset and delay. |
| `Servo.WrServo.Steer` | PTPWRd/dep/wr_servo.c:326-436 | The lock check and the six-state switch. |
| `Servo.DeltaSurvives` | PTPWRd/dep/wr_servo.c:190-194 | A delay survives split and join if and only if it is below 2^31 ps. |
| `Servo.DeltaIsScaled` | PTPWRd/wr_protocol.c:441-442 | The two halves are the delay in units of 2^-16 ps if and only if it is below 2^48 ps. |
| `ServoRuns.UpdateSeesLink` | PTPWRd/dep/wr_servo.c:266-331 | One update, end to end: from four stamps of a link that obeys the alpha relation it is a control step on the clock difference and the one-way delay, both as adjusted by hand and to 1.5 ps. |
| `ServoRuns.TimingStep` | PTPWRd/dep/wr_servo.c:335-436 | For any reading the timing output stays within TRACK_PHASE, its wait, or SYNC_TAI, and is switched on only by an on-target update. |
| `ServoRuns.TimingOnHasCause` | PTPWRd/dep/wr_servo.c:395-411 | Whenever the output is on in a run, there was an update with whole-cycle offset zero and under 60 ps left, and it has been on ever since. |
| `ServoRuns.TimingOutputExactlyWhen` | PTPWRd/dep/wr_servo.c:326-411 | After an update the timing output is on if and only if it was just found on target, or was on, with the PLL locked, outside SYNC_TAI. |
| `ServoRuns.RestartExactlyWhen` | PTPWRd/dep/wr_servo.c:326-333 | In a run a restart is requested if and only if one was before, or some update found the PLL out of lock. |
| `ServoRuns.SetpointFollowsDelay` | PTPWRd/dep/wr_servo.c:383-432 | From an update in SYNC_PHASE to any later one that tracks, the setpoint sent to the hardware moves by exactly the difference of the two measured delays, whatever comes in between. |
| `ServoRuns.TrackingUpdate` | PTPWRd/dep/wr_servo.c:413-432 | An update that tracks sends one command, the new setpoint, which differs from the old one by the change of the delay, and makes this delay the reference. |
| `ServoRuns.UntrackedUpdate` | PTPWRd/dep/wr_servo.c:413-432 | One that does not track sends and changes nothing, but goes back to SYNC_TAI if and only if the offset is a cycle or more. |
| `ServoRuns.PhaseUpdate` | PTPWRd/dep/wr_servo.c:383-393 | SYNC_PHASE takes out what is left of the offset and makes its delay the reference. |
| `ServoRuns.SetpointTracksDelay` | PTPWRd/dep/wr_servo.c:413-432 | Between two SYNC_PHASE updates, setpoint minus reference delay never changes. |
| `ServoRuns.SyncPhaseAnchors` | PTPWRd/dep/wr_servo.c:383-393 | What SYNC_PHASE anchors the setpoint to. |
| `ServoLoop.ServoSettlesExactlyWhen` | PTPWRd/dep/wr_servo.c:335-436 | With an ideal actuator and any setpoint left in it, a fresh servo reaches TRACK_PHASE if and only if whole seconds are to be taken out, or the setpoint is under 60 ps, or the setpoint is at least a cycle and the residue of the offset is under 60 ps. |
| `ServoLoop.ServoConverges` | PTPWRd/dep/wr_servo.c:335-411 | When it can, it does, with the timing output on and exactly the offset foretold, within a budget of 7, 8 or 14 idle updates. |
| `ServoLoop.ServoNeverSettles` | PTPWRd/dep/wr_servo.c:395-411 | When it cannot, it never enters TRACK_PHASE in any run, and has missed ten times after 23 idle updates. |
| `ServoLoop.ReachesForetold` | PTPWRd/dep/wr_servo.c:335-411 | Whatever the actuator reports, TRACK_PHASE is first reached only with the offset foretold. |
| `ServoLoop.SetpointIsLeft` | PTPWRd/dep/wr_servo.c:383-411 | Without whole seconds, eight idle updates lead to TRACK_PHASE with the old setpoint left as offset if and only if that is under 60 ps. |
| `ServoLoop.ZeroSetpointSettles` | PTPWRd/dep/wr_servo.c:335-411 | With setpoint zero the servo settles from any offset with none left within eight idle updates. |
| `ServoLoop.StaleSetpoint` | PTPWRd/dep/wr_servo.c:174-188 | A concrete failure: no offset, 500 ps left in the actuator by an earlier session, never TRACK_PHASE. |
| `ServoLoop.Advance` | PTPWRd/dep/wr_servo.c:335-436 | Every update keeps the verdict on a servo and an idle one uses up its budget. |
| `ServoLoop.PhaseStepLeavesSetpoint` | PTPWRd/dep/wr_servo.c:383-393 | What a phase step leaves behind is exactly the setpoint the actuator had before. |
| `ServoLoop.StabilityCheck` | PTPWRd/dep/wr_servo.c:395-411 | The check passes if and only if less than 60 ps are left; otherwise one miss is counted. |
| `ServoRuns.MissesAreFinal` | PTPWRd/dep/wr_servo.c:405-408 | After ten misses the servo can never settle again, since only wr_servo_init clears the count. |
| `Linearize.RxTimestamp.Linearize` | libptpnetif/ptpd_netif.c:134-175 | The in-place correction equals the closed form used below. |
| `Linearize.WindowIsMetastable` | libptpnetif/ptpd_netif.c:97-103 | The two circular window tests recognise exactly the metastable instants and those after the tick, for every transition point. |
| `Linearize.LinearizationExact` | libptpnetif/ptpd_netif.c:134-175 | For every instant, transition point, period and behaviour of the unreliable counter, the output is the true tick and the true phase. |
| `PacketRing.SockQueue.constructor` | libposix/net.c:64-105 | An empty queue. |
| `PacketRing.SockQueue.WrapCopyOut` | libposix/net.c:185-198 | The ring then holds the old bytes followed by the new ones, across wrap-around. |
| `PacketRing.SockQueue.WrapCopyIn` | libposix/net.c:168-183 | The oldest bytes come out and the ring holds the rest. |
| `PacketRing.SockQueue.Enqueue` | libposix/net.c:310-334 | A packet is appended if and only if it fits; a full queue drops it and changes nothing. |
| `PacketRing.SockQueue.Receive` | libposix/net.c:200-251 | The oldest packet comes out unaltered, cut to the reader's buffer; the queue remains a queue of packets if and only if that buffer was large enough. |
| `PacketRing.SockQueue.TakePacket` | libposix/net.c:215-223 | The four fields of the packet, and what a short reader leaves behind. |
| `PacketRing.SockQueue.Serve` | libposix/net.c:200-334 | Bridge: any history of arrivals and reads on the ring object, with a large enough reader, delivers and queues exactly what the abstract history does. |
| `PacketRing.FifoConservation` | libposix/net.c:200-334 | For any such history, delivered packets followed by queued ones are the accepted ones, in order, and they fit the buffer. |
| `Bmc.CompareIsLexicographic` | PTPWRd/bmc.c:333-602 | The sign of the comparison is the lexicographic order of nine keys if and only if neither blind spot is hit: the variance compared by one byte, or the comparing clock's own echo. |
| `Bmc.CompareMeaning` | PTPWRd/bmc.c:316-602 | The exact answer for any two records, empty ones and blind spots included: by topology for a better path to one grandmaster, otherwise by rank, and no answer for equals. |
| `Bmc.ByTopologyExactlyWhen` | PTPWRd/bmc.c:340-505 | An answer by topology if and only if the grandmaster is the same and either the steps are equal and sender or reception port differ, or they differ by one and the further record's sender is below the receiver. |
| `Bmc.OutranksByKey` | PTPWRd/bmc.c:316-602 | On regular records ranking is the lexicographic order of the attributes. |
| `Bmc.CompareAntisymmetric` | PTPWRd/bmc.c:333-602 | Swapping the records negates the result, with no premise. |
| `Bmc.CompareTransitive` | PTPWRd/bmc.c:333-602 | Outside the blind spots the comparison is a transitive preorder. |
| `Bmc.VarianceBreaksTransitivity` | PTPWRd/bmc.c:520-528 | Because of the one-byte variance, any three masters can be ranked in a cycle. |
| `BestScan.ScanFindsFirstBest` | PTPWRd/bmc.c:776-810 | The scan returns the first record of the port that no other one beats. |
| `BestScan.ScanPortsFindsBest` | PTPWRd/bmc.c:823-874 | Given correct per-port bests and one non-empty port, the scan over all ports finds the first record that none on any port beats. |
| `StateDecision.ClockDS.EBest` | PTPWRd/bmc.c:823-874 | The two loops over the ports compute that scan and store its result. |
| `StateDecision.BmcPort.BmcStateDecision` | PTPWRd/bmc.c:611-742 | The recommended state, and everything that the action taken on the way leaves in the data sets: parent, role, secondary master and primary slave port. |
| `StateDecision.BmcPort.Bmc` | PTPWRd/bmc.c:748-769 | While no port has heard a foreign master, a master stays one with m1; every other port does what bmcStateDecision decides. |
| `StateDecision.BmcPort.M1` | PTPWRd/bmc.c:140-178 | The local clock becomes its own WR parent. |
| `StateDecision.BmcPort.S1` | PTPWRd/bmc.c:192-260 | The clock follows the record, and the port becomes primary slave. |
| `StateDecision.BmcPort.S2` | PTPWRd/bmc.c:263-282 | The port becomes secondary slave of the record. |
| `StateDecision.BmcPort.CopyD0` | PTPWRd/bmc.c:285-301 | The local clock as a record. |
| `StateDecision.DecisionIsGood` | PTPWRd/bmc.c:611-769 | A SLAVE recommendation always comes with a slave role: the premise of the coupling theorem. |
| `StateDecision.ActionExactlyWhen` | PTPWRd/bmc.c:611-742 | For every clock and port, exactly which of the six actions is taken, in terms of configuration, ranks and paths. |
| `StateDecision.StateOfAction` | PTPWRd/bmc.c:611-742 | Exactly which state is recommended with each action. |
| `StateDecision.GrandmasterExactlyWhen` | PTPWRd/bmc.c:645-668 | With clockClass below 128, on regular records: master if and only if the clock's own attributes come lexicographically before those of the port's best record, else passive, without slave role if they come after. |
| `StateDecision.OrdinaryExactlyWhen` | PTPWRd/bmc.c:670-742 | Otherwise, on regular records: passive if and only if the clock equals the best of all ports, slave if and only if it comes after it and the port received it or is a worse path to it, else master. |
| `StateDecision.PrimarySlaveWhen` | PTPWRd/bmc.c:611-742 | Exactly when a port becomes primary slave, in terms of ranks. |
| `StateDecision.OnePrimarySlave` | PTPWRd/bmc.c:611-742 | In one decision round at most one port becomes primary slave, the one that received Ebest. |
| `StateDecision.PrimarySlaveHasBest` | PTPWRd/bmc.c:611-742 | After EBest, the primary slave is the port whose own best record is the global best, which no record on any port beats. |
| `StateDecision.BmcPort.BmcRound` | PTPWRd/bmc.c:748-769 | So its clock then follows a record that none on any port beats. |
| `StateDecision.GrandmasterHasNoSlave` | PTPWRd/bmc.c:611-742 | With clockClass below 128 no port that is not slave-only becomes slave. |
| `StateDecision.SecondarySlaveWhen` | PTPWRd/bmc.c:715-735 | Exactly when a port becomes secondary slave, in terms of ranks and paths. |
| `StateDecision.RedundantLinks` | PTPWRd/bmc.c:611-742 | Two links to one master that outranks the clock: the lower port becomes primary, the other one secondary slave. |
| `ForeignTable.PortTable.Search` | PTPWRd/protocol.c:1909-1936 | The rotated search finds a known master, and only a known one. |
| `ForeignTable.PortTable.AddForeign` | PTPWRd/protocol.c:1909-1965 | A known master is refreshed in its slot; a new one is pushed on a bounded FIFO, the oldest falling out; either way the announced record is then in use. |
| `ForeignTable.PortTable.Refresh` | PTPWRd/protocol.c:1923-1930 | The entry of a known master: counted, header and announce overwritten, all other entries as they were. |
| `ForeignTable.PortTable.InsertNew` | PTPWRd/protocol.c:1938-1964 | The new slot, the count and the next index after a push. |
| `ForeignTable.PortTable.ClearForeignMasters` | PTPWRd/protocol.c:2033-2046 | The table becomes empty and ready. |
| `ForeignTable.PortTable.AnnounceTimeout` | PTPWRd/protocol.c:619-626 | The timeout empties the table but keeps the index of the best. |
| `ForeignTable.PortTable.ErBest` | PTPWRd/bmc.c:776-810 | The best index becomes the result of the scan: on regular records the first one that no other record of the port beats. |
| `ForeignTable.PortTable.HandleAnnounce` | PTPWRd/protocol.c:863-945 | The whole table after an Announce: unchanged if the port is not running or sent it itself, the best record overwritten by a message of the parent, the effect of addForeign otherwise. |
| `ForeignTable.PortTable.TakeEvents` | PTPWRd/protocol.c:49-84 | The events of a turn before the update of the best master. |
| `ForeignTable.PortTable.LoopTurn` | PTPWRd/protocol.c:49-96 | One turn of the single-port loop keeps the table valid and its best in use, so that every search is exhaustive; what was announced is in use at its end, but for a message of the parent at an empty table, and the best index is the first record that no other one beats. |
| `ForeignTable.SearchIsExhaustive` | PTPWRd/protocol.c:1920-1936 | Started at a record in use, the search visits every record. |
| `ForeignTable.SearchMissesOne` | PTPWRd/protocol.c:1920-1936 | Started at a record out of use, it misses one: why the loop order matters. |
| `ForeignTable.InsertIsPush` | PTPWRd/protocol.c:1938-1964 | Writing the ring's next slot is a push on the FIFO. |
| `ForeignTable.TurnKeepsFifo` | PTPWRd/protocol.c:49-96 | The FIFO stays bounded and free of duplicates. |
| `Pairing.SlavePort.HandleSync` | PTPWRd/protocol.c:948-1035 | A Sync of the parent overwrites the receive time, with 32-bit seconds, and, if two-step, which Follow_Up is awaited. |
| `Pairing.SlavePort.HandleFollowUp` | PTPWRd/protocol.c:1038-1130 | Only the awaited Follow_Up of the parent completes t1 and t2 and triggers a request. |
| `Pairing.SlavePort.HandleDelayResp` | PTPWRd/protocol.c:1191-1257 | Only the parent's answer to this port and the last number sent completes t3 and t4; the servo then steps on exactly these four stamps. |
| `Pairing.SlavePort.BecomeSlave` | PTPWRd/protocol.c:388-392 | Entering SLAVE awaits no Follow_Up, and an initialised servo has no Sync. |
| `Pairing.SlavePort.IssueDelayReq` | PTPWRd/protocol.c:1744-1763 | The transmission stamp is overwritten, the counter moves only if the message went out. |
| `Pairing.MasterPort.SyncTimer` | PTPWRd/protocol.c:672-679 | A Sync, and a Follow_Up with its stamp and number if the stamp is correct. |
| `PairingRuns.EveryUpdateIsPaired` | PTPWRd/protocol.c:983-1107 | In every run over a lossy, duplicating, reordering network, each servo update uses t1 and t2 of one Sync and t3 and t4 of the latest request, and none of them whose stamp could not be read. |
| `PairingRuns.UpdatesConsume` | PTPWRd/dep/wr_servo.c:266-280 | Between two updates the slave accepts another Follow_Up: every update consumes its Sync. |
| `PairingRuns.FollowUpsConsume` | PTPWRd/protocol.c:1076-1112 | Between two accepted Follow_Ups a two-step Sync arrives: a duplicate is never taken. |
| `PairingRuns.EntryForgets` | PTPWRd/protocol.c:388-392 | After a port became slave with an initialised servo, an update needs a two-step Sync and its Follow_Up received since. |
| `PairingRuns.WireExactlyUntil2038` | PTPWRd/arith.c:113-128 | A stamp survives the message format if and only if it is before 2038; from then on the receiver keeps what its memory held. |
| `PairingRuns.NextKeepsInv` | PTPWRd/protocol.c:948-1257 | Every event keeps the pairing invariant. |
| `PairingRuns.FollowUpAcceptance` | PTPWRd/protocol.c:1073-1112 | Without an age limit a Follow_Up is accepted if and only if it is a whole number of 16-bit wraps away from the Sync held. |
| `PairingRuns.ResponseAcceptance` | PTPWRd/protocol.c:1219-1251 | A response is accepted if and only if it answers the latest request and the counter did not just wrap to zero. |
| `PairingRuns.RoundCompletes` | PTPWRd/protocol.c:983-1251 | From every reachable state an undisturbed round ends in an update with its own four stamps, except when the counter just wrapped. |

## Left out

- WrLossyLink.CausalChain: the master node never enters WRS_PRESENT; `WrRoles.ExchangedRolesBreakChain` shows that the chain fails otherwise.
- WrChain.NodeStep: for the slave node, that it hears no SLAVE_PRESENT, which the link of `WrLossyLink` guarantees.
- WrGiveUp.GivesUpExactlyWhen: the turns up to then are silent (no signaling, no fault, and hardware that does not let the state be left).
- WrModes.ModeOnHasCause: decisions of the best master clock algorithm, and no lost LOCK message.
- WrCalibration.ReportsLastMeasurements: turns of one stay in CALIBRATION that starts at the latest at the Tx measurement, as every entry does.
- WrFifoLink.SetupAgrees: one session without timer expiry, on which every send succeeds; `WrLoss` has what a loss does.
- WrProgress.CanFinishAt: the timeouts of the setup are not expired as soon as they are started; a `calPeriod` from 2^31 on is a negative timeout and is, except at the origin of time.
- WrTermination.SessionsEnd: a session configured with a state timeout that is not zero; `WrTermination.StallsExactlyWhen` says what happens otherwise.
- WrCoupling.RunStaysCoupled: runs in which no LOCK message is lost on leaving WRS_IDLE.
- ServoLoop.ServoSettlesExactlyWhen: the actuator is ideal (an adjustment takes effect fully before it reports idle) and the PLL stays locked.
- LinkModel.OffsetError: the four fixed delays add up within 32 bits.
- PairingRuns.EveryUpdateIsPaired: one parent, no message and no held Sync older than one 16-bit wrap, and a transmission that fails has no stamp marked correct.
- StateDecision.ClockDS.EBest: one port has a record; with every port empty the source reads past its last port (PTPWRd/bmc.c:833-865), which has no defined result.
- ForeignTable.PortTable.LoopTurn: one port; with several, `globalBestForeignMastersUpdate` gives port 0 to every `ErBest` (PTPWRd/protocol.c:1976). Re-initialisation of a port without `clearForeignMasters` is not modelled.
- Codec.PackSignaling: the identifiers that a port sends; it never sends another.
- Codec.PackAnnounce: the port configuration after auto-detection, so one of four values.
- StateDecision.GrandmasterExactlyWhen: records outside the blind spots; `StateDecision.ActionExactlyWhen` has no such premise.
- WrPort.PtpPort.DoListening: the reset of the foreign-master count on the announce timeout is in `ForeignTable.PortTable.AnnounceTimeout`.
- WrPort.PtpPort.DoInit: data sets, timers, clock and servo that are not part of the two state machines.
- WrPort.PtpPort.ToState: the PTP timers; the servo and `waitingForFollow` on entering SLAVE are in `Pairing.SlavePort.BecomeSlave`.
- WrPort.PtpPort.Handle: a message that is not signaling counts only by whether it faults; what Announce and the four timing messages do is in `ForeignTable` and `Pairing`.
- WrPort.PtpPort.EnterWrState: the WR-mode flag written to the best foreign record, and the call that enables phase tracking.
- StateDecision.BmcPort.M1: `timeSource` and `parentIsWRnode`.
- StateDecision.BmcPort.S1: the time properties data set and `parentIsWRnode`.
- StateDecision.BmcPort.S2: of the secondary record only the identity.
- StateDecision.BmcPort.CopyD0: the WR flags and the message buffers, which the comparison does not read.
- ForeignTable.PortTable.HandleAnnounce: messages that are too short, and the announce receipt timer.
- PacketRing.SockQueue.Receive: the address fields and the linearized timestamp that are computed from header and stamp.
- Pairing.SlavePort.HandleSync: the software clock servo that a one-step Sync would drive.
- Linearize.LinearizationExact: the falling-edge counter is reliable in the window of the rising one.
- The port object groups members in records (configuration, FSM, calibration, parent); the WR state is a main state with a substate number.
- The PTP interval timers inside the port FSM, whose expiries are inputs.
- Packing and unpacking of Sync, Follow_Up, Delay_Req and Delay_Resp: the pairing model carries their fields, with the second and nanosecond words and the correction field as they travel.
- Peer delay: its filter is an empty stub (PTPWRd/dep/servo.c:14-17).
- Sockets, socket lookup, ioctls, HAL calls, minipc, display, tracing, statistics, option parsing and startup.
- `primarySlavePortNumber` and `secondarySlavePortNumber` across ports: `m1` on any port zeroes the former (PTPWRd/bmc.c:177).
- Big-endian hosts and unaligned access.
