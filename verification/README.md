# ProSE waste-bin collector: a Dafny model of the on-board core

The collector sits on a garbage truck. An operator drives a tour. A tablet sends the tour
data over a Bluetooth link. At each bin:

- an RFID tag is scanned;
- the bin is evaluated against the tour;
- the operator is shown the verdict on LEDs;
- a lift is allowed only after acceptance (or a forced lift);
- the bin is weighed;
- a report holding id, position, state, date-time and weight is appended to the tour's
  in-progress list.

At the end of the tour the list is sent back to the tablet.

The software is a set of active objects. Each has a private POSIX message queue, a state,
a transition matrix and an action table. This project models the following:

- **TourManager** (`tourManager.c`): the tour state machine. It includes its data
  functions `checkIdBin`, `updateBinData` and `updateTourData`, modelled in **TourData**.
- **Speaker** (`speaker.c`): operator feedback, including its 32-slot action table, the
  bin-state evaluation and the lift inhibitor.
- **AdminScanner** (`adminScanner.c`): the RFID scan cycle.
- **Postman** (`postmanBenno.c`): the link writer state machine, the shared send buffer
  and the reader loop.
- **Dispatcher** (`dispatcherBenno.c`): the parser for incoming tablet messages.
- **Proxy** (`proxyTourDirector.c`): the framing of outgoing reports.
- **Scales** (`scales.c`): the rotary-encoder weight reading.
- **ClockMaker** (`clockMaker.c`): the date-time text and the clock-setting command.

Two shared modules support these:

- **Text**: C strings over zero-filled buffers, `strncpy`, and `sprintf("%d")`.
- **Mailbox**: a FIFO queue of capacity `MQ_MAX_MESSAGES` = 10.

Every active object is a pure datatype value. The pieces of each object map onto Dafny
functions as follows:

- `Table` is the transition matrix. Cells left out of the C initialiser read as the
  zero cell.
- `Perform` or `Execute` is the action table.
- `Transition` is `*_transitionFct`.
- `Receive` is one iteration of `run`, including its stop or death test.
- `Run(x, n)` is up to `n` iterations over the mailbox.

Effects on other objects are returned as a sequence of `Output` values in call order.
Hardware, clocks, the RFID reader and sockets are inputs: an `Env` record, a tag list, a
sample list or a list of `read` results.

In these places the code does something other than its names and comments suggest, and
the model follows the code:

- **Scan stop:** A_NSCAN is commented as stopping the RFID reading
  (`adminScanner.c:74`), but its cells lead to Idle (`adminScanner.c:158,161`), whose
  zero cell runs `A_NOP`, which posts `E_START` (`adminScanner.c:336-344`). `E_STOP`
  therefore restarts scanning.
- **Inhibitor:** the lift inhibitor is set only at start-up (`speaker.c:1069`) and in
  `emptyBin` (`speaker.c:1040-1044`). Entering evaluation does not set it.
- **Duplicate tag ids:** `checkIdBin` stops at the first match
  (`tourManager.c:703-730`), but `updateBinData` keeps the last match
  (`tourManager.c:744-757`).
- **Offline reports:** in Idle the postman's matrix has no cell for `E_SEND_MSG`, so a
  report sent while the link is down is lost (`postmanBenno.c:348`). It is not kept for
  later.

## Model

| member | source | states |
|---|---|---|
| Mailbox.Send | tourManager/tourManager.c:621-629 | a sent message joins the back of the queue, keeping everything before it |
| Mailbox.Receive | tourManager/tourManager.c:611-619 | the received message is the oldest one and the rest stay queued in order |
| Mailbox.FifoOrder | tourManager/tourManager.c:611-629 | a message sent behind a non-empty queue does not overtake the head |
| ClockMaker.TwoDigitsInRange | clockMaker/clockMaker.c:103-105 | a `%02d` field in 0..99 prints as two digits that read back as the field |
| ClockMaker.Format | clockMaker/clockMaker.c:103-105 | for the field ranges `localtime` produces, the rendering has the `YYYY-MM-DD HH:MM:SS` layout |
| ClockMaker.Parse | clockMaker/clockMaker.c:103-105 | a text parses exactly when it has the `YYYY-MM-DD HH:MM:SS` layout |
| ClockMaker.YearFieldFourDigits | clockMaker/clockMaker.c:103-104 | a `%4d` year in 1000..9999 prints as exactly four digits reading back as the year |
| ClockMaker.FormatFields | clockMaker/clockMaker.c:103-105 | the position of each field and separator in the rendering |
| ClockMaker.FieldsMakeLayout | clockMaker/clockMaker.c:103-105 | digit fields with the separators in place make the `YYYY-MM-DD HH:MM:SS` layout |
| ClockMaker.FieldsParse | clockMaker/clockMaker.c:103-105 | a laid-out text whose fields read back as a time parses to that time |
| ClockMaker.ShortYearField | clockMaker/clockMaker.c:103-104 | a year below 1000 prints as four characters starting with a space |
| ClockMaker.FormatRoundTrip | clockMaker/clockMaker.c:103-105 | the rendering of an in-range time has the layout and parses back to the same time |
| ClockMaker.ShortYearSpacePadded | clockMaker/clockMaker.c:103-104 | a year below 1000 is padded with a space, which breaks the layout |
| ClockMaker.DefaultDateTimeLayout | clockMaker/clockMaker.c:66-80 | the default date is the rendering of 2021-01-01 00:00:00 and has the layout |
| ClockMaker.LayoutPlain | clockMaker/clockMaker.c:103-105 | a text in the layout holds neither a NUL nor a quote |
| ClockMaker.ClockCommandOfTime | clockMaker/clockMaker.c:44-62 | for a rendered time, the command text after the prefix parses back to the time, a space separates date and time, and no quote protects it |
| ClockMaker.DefaultCommandQuotesDate | clockMaker/clockMaker.c:66-80 | the start-up command is the same prefix followed by the rendering of 2021-01-01 00:00:00 between quotes, so it holds quotes where the DATI command holds none |
| ClockMaker.DefaultCommandText | clockMaker/clockMaker.c:71 | the start-up command opens a quote right after the prefix, keeps the date's space inside it, and closes it at the end |
| ClockMaker.SetClockCommand | clockMaker/clockMaker.c:44-62 | the command is the `sudo date -s ` prefix followed by the date buffer's C string |
| Scales.GetWeight | scales/scales.c:144-175 | None exactly when no press is seen; otherwise it stops at the first press, the weight is the tick count up to it clamped to 500, and the pin levels are left for the next call |
| Scales.WeightSteps | scales/scales.c:158-171 | the clamped weight never decreases during a reading and grows by at most one per pass |
| Scales.TickOnlyOnRisingEdge | scales/scales.c:158-168 | a pass adds one kilogram exactly on a CLK rising edge with DT high |
| Scales.ConsecutiveReadings | scales/scales.c:136-175 | the second reading is `getWeight` run from the pin levels the first left, counted from 0 and clamped to 500; there is none without a first; it needs two samples before a press |
| TourData.ArrayLen | tourManager/tourManager.c:698-701 | the array length stored in a `uint8_t` is the length modulo 256 |
| TourData.FirstMatchDecides | tourManager/tourManager.c:703-730 | Unknown exactly when no id in the range matches; otherwise it is the evaluation of the first match |
| TourData.SingleRecordTour | tourManager/tourManager.c:693-733 | a one-record tour evaluates an id by that record alone: Unknown for another id, else Accepted or Refused by its state text |
| TourData.CheckIdBin | tourManager/tourManager.c:693-733 | a scanned id evaluates to the state of the first matching record among the first `ArrayLen` records, or Unknown when there is none |
| TourData.LastMatch | tourManager/tourManager.c:744-757 | the search without `break` returns the last matching index |
| TourData.UpdateBinData | tourManager/tourManager.c:737-773 | the report carries the id, date and weight text, and the position and state of the last matching record, or UNKNOWN fields when none matches |
| TourData.UpdateTourData | tourManager/tourManager.c:777-780 | the report is appended and earlier reports are kept |
| TourData.WeightTextFits | tourManager/tourManager.c:767-768 | a weight of 0..500 prints in at most three digits that read back as the weight, so it fits the 4-byte buffer |
| TourData.DuplicateIdsDisagree | tourManager/tourManager.c:693-773 | with a duplicated id, the evaluation uses the first record and the report uses the last |
| TourData.WrappedLengthHidesTour | tourManager/tourManager.c:698-701 | a 256-record tour is searched as if empty |
| TourData.FirstMatchStatePrefix | tourManager/tourManager.c:703-730 | the search reads nothing beyond its bound |
| TourData.RecordsBeyondWrapIgnored | tourManager/tourManager.c:698-733 | records past `ArrayLen` never influence the evaluation |
| TourManager.New | tourManager/tourManager.c:420-440 | a fresh empty mailbox and state Idle, with the statics kept |
| TourManager.Table | tourManager/tourManager.c:246-274 | an empty cell is exactly one leading to Forget, no cell leads to Dead, and E_ENDTOUR and E_REST are acted on exactly in the four active states |
| TourManager.Perform | tourManager/tourManager.c:631-690 | each action changes only its own fields: only A_ASKWEIGHT queues an event (E_SET_WEIGHT), only A_ENTERACTIVE clears the tour, and the list in progress, the bin state, the weight and the current report each change only under their own action |
| TourManager.Transition | tourManager/tourManager.c:569-590 | an empty cell loses the event and changes nothing; otherwise the state becomes the cell's destination |
| TourManager.Receive | tourManager/tourManager.c:592-609 | E_DEATH sets Forget with no action and frees the mailbox, discarding what is queued; any other event goes through the transition |
| TourManager.Run | tourManager/tourManager.c:592-609 | the mailbox stays within capacity, the loop does nothing once the state is Forget or the mailbox is empty, and the loop keeps the invariant that every weight text in the list in progress fits in three digits |
| TourManager.Post | tourManager/tourManager.c:509-548 | an API call only appends its event to the mailbox |
| TourManager.SetInitialTourData | tourManager/tourManager.c:486-492 | the tour is stored at once in the caller's thread and E_SET_TOURDATA is queued |
| TourManager.SetIdBinToTourManager | tourManager/tourManager.c:494-500 | the id is stored at once and E_SET_IDBIN is queued |
| TourManager.SetWeightToTourManager | tourManager/tourManager.c:502-508 | the weight is stored at once and E_SET_WEIGHT is queued |
| TourManager.ScalesAskWeight | scales/scales.c:136-141 | no event is queued when the samples hold no press; otherwise the weight `getWeight` reads, at most 500, is stored and E_SET_WEIGHT is queued |
| TourManager.RequestWeightIsAskWeight | tourManager/tourManager.c:412 | A_ASKWEIGHT, which is `Scales_askWeight` in the action table, stores the weight read and queues E_SET_WEIGHT, with no other output |
| TourManager.ReceiveKeepsReportsFit | tourManager/tourManager.c:737-773 | handling an event keeps every weight text in the list in progress within the three digits the 4-byte `weightToChar` buffer holds |
| TourManager.NoCellTargetsDead | tourManager/tourManager.c:246-274 | no cell of the matrix leads to the dead state |
| TourManager.DeathEndsLoop | tourManager/tourManager.c:592-609 | E_DEATH at the head of the mailbox ends the loop in Forget, and the messages behind it are discarded with the queue |
| TourManager.MainPath | tourManager/tourManager.c:246-274 | the cells of the tour's main path, from the tour data through scan, weigh and lift to collection |
| TourManager.EndOfTourHandshake | tourManager/tourManager.c:246-274 | E_ENDTOUR reaches TourEnded exactly from the four active states, and TourEnded accepts only the acknowledgement |
| TourManager.EndTourReportsList | tourManager/tourManager.c:636-642 | ending the tour sends the in-progress list once, then stops the scanner |
| TourManager.RestReturnsToOrigin | tourManager/tourManager.c:246-274 | each active state has its own rest state, which returns to it on E_STOPREST and loses every other event |
| TourManager.InProgressEvolution | tourManager/tourManager.c:649-670 | the in-progress list is reset when a tour starts, grows by one report at each collection, and is otherwise unchanged |
| TourManager.LatestIdWins | tourManager/tourManager.c:494-500 | two ids queued before the loop runs are both evaluated as the second one |
| TourManager.TourReplacedWhenEventLost | tourManager/tourManager.c:486-492 | the tour is replaced even when its event is then lost in WaitingForBin |
| TourManager.RunOne | tourManager/tourManager.c:592-609 | one queued message and one input: the loop handles exactly that message |
| TourManager.CellRuns | tourManager/tourManager.c:569-609 | an event other than E_DEATH whose cell is non-empty runs the cell's action and moves to its destination |
| TourManager.CollectCell | tourManager/tourManager.c:665-670 | E_TIME_OUT in IsLifting records the bin with the local time and the stored weight and returns to WaitingForBin |
| TourManager.StartTourStep | tourManager/tourManager.c:649-657 | a tour arriving in Idle signals reception, starts the scanner and the scales, and empties the list |
| TourManager.ScanStep | tourManager/tourManager.c:659-663 | a scanned id is evaluated against the tour and the verdict is signalled |
| TourManager.WeighStep | tourManager/tourManager.c:412 | asking for the weight reads the scales, which post the weight back, and the bin is then lifted |
| TourManager.AskWeightCell | tourManager/tourManager.c:412 | A_ASKWEIGHT in WaitingForBin stores the weight the scales read and queues E_SET_WEIGHT, with no output |
| TourManager.LiftCell | tourManager/tourManager.c:687-690 | E_SET_WEIGHT in WaitingForWeight moves to IsLifting and asks the speaker to have the bin emptied |
| TourManager.RunHead | tourManager/tourManager.c:592-619 | the first loop iteration handles the oldest message with the first input, then the loop goes on |
| TourManager.CollectStep | tourManager/tourManager.c:665-670 | the time-out records the bin with the local time and weight and returns to WaitingForBin |
| TourManager.StartAndScan | tourManager/tourManager.c:649-663 | the tour's arrival followed by one scan, with the object and outputs that result |
| TourManager.WeighAndCollect | tourManager/tourManager.c:665-690 | weighing, lifting and the time-out from WaitingForBin record one report read from the tour, the clock and the scales, and return to WaitingForBin |
| TourManager.CollectOneBin | tourManager/tourManager.c:649-690 | a whole bin cycle ends in WaitingForBin with an empty mailbox, the same tour, and one report whose fields come from the tour, the clock and the scales |
| TourManager.CollectOneBinOutputs | tourManager/tourManager.c:649-690 | the outputs of a bin cycle, in order: reception signal, scanner and scales start-up, the bin's state, the request to empty it and the report |
| TourManager.AcceptedBinCycle | tourManager/tourManager.c:693-773 | for a one-record tour accepting the bin, the cycle signals ACCEPTED and records a report with that id and the printed weight |
| Speaker.Slot | uiBenno/speaker/speaker.c:573-584 | only the last enum value has no routine in the table |
| Speaker.Table | uiBenno/speaker/speaker.c:215-258 | only empty cells name A_NOP, the non-empty cells leading to Forget are exactly the E_STOP_BENNO cells of the nine active states, and a rest state accepts only E_RE_ENDOFREST |
| Speaker.SlotIsTableEntry | uiBenno/speaker/speaker.c:573-584 | a slot is the table entry at the action's enum value, and the slot past the 31 initialisers is empty |
| Speaker.ActionTableShift | uiBenno/speaker/speaker.c:72-107 | the table holds the intended routine for enum values below 25 and the next value's routine from 25 on, and the last slot is empty |
| Speaker.EvaluationOf | uiBenno/speaker/speaker.c:910-927 | each bin state maps to one of the three evaluation events |
| Speaker.EvaluationMatchesVerdict | uiBenno/speaker/speaker.c:910-927 | the evaluation event is injective in the bin state and leads from BinEval to the matching verdict state |
| Speaker.EmptyBin | uiBenno/speaker/speaker.c:1040-1054 | the inhibitor ends up set and nothing else changes |
| Speaker.Effect | uiBenno/speaker/speaker.c:648-804 | a routine touches only the mailbox and the inhibitor: only `actionWfsToBinEval` posts (the evaluation of the stored bin state), the three routines into BinAccepted clear the inhibitor and `actionBinWeighingToBinEmptying` sets it |
| Speaker.Emitted | uiBenno/speaker/speaker.c:648-804 | at most two outputs; only the lift from BinAccepted asks for the weight; the rest signal comes exactly from the routines into a rest state, and only the one from BinEmptying cancels the watchdog; no routine releases or starts the devices |
| Speaker.Execute | uiBenno/speaker/speaker.c:648-804 | only the evaluation routine posts, the inhibitor is cleared by exactly the three routines into BinAccepted, emptying sets it, and every routine leaves the state to the transition |
| Speaker.Transition | uiBenno/speaker/speaker.c:591-609 | an empty cell loses the event; calling through the empty slot crashes; otherwise the state becomes the destination |
| Speaker.Receive | uiBenno/speaker/speaker.c:611-627 | E_STOP_BENNO sets Forget before any lookup; other events go through the transition |
| Speaker.Run | uiBenno/speaker/speaker.c:611-627 | the mailbox stays within capacity, the loop does nothing once the state is Forget or the mailbox is empty, and any number of iterations keep the invariant that the inhibitor is off only where a lift is allowed |
| Speaker.Post | uiBenno/speaker/speaker.c:849-865 | an API call only appends its event to the mailbox |
| Speaker.RequestStartSignalOk | uiBenno/speaker/speaker.c:1056-1071 | start-up gives a fresh mailbox and sets the inhibitor, then polls the buttons and shows the start signal |
| Speaker.RequestConnectionSignalOk | uiBenno/speaker/speaker.c:815-821 | the LED is lit in the caller's thread, E_RE_CONNEXION_SIOK joins the back of the mailbox, and no other field changes |
| Speaker.RequestDataReceptionSignalOk | uiBenno/speaker/speaker.c:823-835 | the blink is shown, E_RE_DATA_CONNEXIONOK joins the back of the mailbox, and no other field changes |
| Speaker.RequestDataReceptionSignalKo | uiBenno/speaker/speaker.c:837-840 | only the start signal is shown again, and the object is untouched |
| Speaker.RequestBinStateSignal | uiBenno/speaker/speaker.c:842-847 | the bin state is stored at once and E_RE_BIN_STATE is queued |
| Speaker.LiftBin | uiBenno/speaker/speaker.c:867-878 | E_LIFT_BIN is queued exactly when the inhibitor is off |
| Speaker.StopBennoRequest | uiBenno/speaker/speaker.c:892-904 | devices are released and the tools stopped; in the testing build E_STOP_BENNO then joins the mailbox, while in the production build the process has exited and the object is left as it was |
| Speaker.StopRequestEndsLoop | uiBenno/speaker/speaker.c:611-627 | in the testing build, a stop request made while the mailbox is empty ends the loop in Forget with no further output; in the production build it leaves the object as it was |
| Speaker.StopEndsLoop | uiBenno/speaker/speaker.c:611-627 | E_STOP_BENNO ends the loop in Forget from every state |
| Speaker.ExitActiveNeverRuns | uiBenno/speaker/speaker.c:215-258 | every cell naming A_EXIT_ACTIVE is empty, so no event stops the tools through the loop |
| Speaker.RestReturnsToOrigin | uiBenno/speaker/speaker.c:215-258 | each of the nine active states has its own rest state, which returns to it on E_RE_ENDOFREST and loses every other event |
| Speaker.ExecuteShowsRest | uiBenno/speaker/speaker.c:765-798 | the to-rest routines only show the rest signal |
| Speaker.ExecuteShowsEndOfRest | uiBenno/speaker/speaker.c:720-763 | the from-rest routines only show the end-of-rest signal |
| Speaker.RestCell | uiBenno/speaker/speaker.c:215-258 | the E_RE_REST cells of the seven ordinary active states and the routines their shifted slots hold |
| Speaker.EndOfRestCell | uiBenno/speaker/speaker.c:215-258 | each rest state's E_RE_ENDOFREST cell leads back through a slot showing the end-of-rest signal |
| Speaker.RestShowsSignal | uiBenno/speaker/speaker.c:765-798 | resting from the seven ordinary active states only shows the rest signal |
| Speaker.RestFromWeighingCancelsTimer | uiBenno/speaker/speaker.c:800-804 | resting from BinWeighing runs the BinEmptying routine, which cancels the watchdog |
| Speaker.RestFromEmptyingCrashes | uiBenno/speaker/speaker.c:573-584 | resting from BinEmptying calls through the empty slot |
| Speaker.EndOfRestRestores | uiBenno/speaker/speaker.c:215-258 | ending a rest restores the exact object it was entered from |
| Speaker.EvaluationRoundTrip | uiBenno/speaker/speaker.c:672-691 | the bin-state request posts the evaluation, which moves to the verdict state and shows it |
| Speaker.ForceLiftAccepts | uiBenno/speaker/speaker.c:693-701 | a forced lift moves exactly BinRefused and BinUnknown to BinAccepted and releases the inhibitor |
| Speaker.LiftAsksWeight | uiBenno/speaker/speaker.c:703-706 | a lift in BinAccepted asks the tour manager for the weight |
| Speaker.EmptyingArmsTimer | uiBenno/speaker/speaker.c:708-713 | emptying arms the 5 s watchdog and sets the inhibitor again |
| Speaker.EmptyTimeOutReported | uiBenno/speaker/speaker.c:715-718 | the time-out returns to WaitingForSignal and is reported to the tour manager |
| Speaker.ClearingSlots | uiBenno/speaker/speaker.c:573-584 | a slot releases the inhibitor exactly when its action leads into BinAccepted |
| Speaker.ClearingCells | uiBenno/speaker/speaker.c:215-258 | the cells naming such an action are exactly the three transitions into BinAccepted |
| Speaker.LeavingMayLift | uiBenno/speaker/speaker.c:215-258 | the lift-allowed states are left only through the weighing-to-emptying routine |
| Speaker.TransitionRunsSlot | uiBenno/speaker/speaker.c:591-609 | a non-empty cell runs the routine in its action's slot |
| Speaker.CellRuns | uiBenno/speaker/speaker.c:591-627 | an event other than E_STOP_BENNO whose cell is non-empty runs the routine of the cell's slot and moves to the destination |
| Speaker.OnlyExitStopsTools | uiBenno/speaker/speaker.c:648-804 | the routine that asks the tour manager to stop the tools is exactly `actionExit` |
| Speaker.ExitActiveCell | uiBenno/speaker/speaker.c:215-258 | a cell naming A_EXIT_ACTIVE is reached only by E_STOP_BENNO and is empty |
| Speaker.ExitActiveCells | uiBenno/speaker/speaker.c:215-258 | the same for every state |
| Speaker.ExitSlot | uiBenno/speaker/speaker.c:573-584 | `actionExit` sits only in the slot of A_EXIT_ACTIVE |
| Speaker.BinStateStep | uiBenno/speaker/speaker.c:672-675 | E_RE_BIN_STATE in WaitingForSignal moves to BinEval and posts the evaluation of the stored bin state |
| Speaker.VerdictStep | uiBenno/speaker/speaker.c:677-691 | the evaluation event moves BinEval to the verdict state, shows the verdict and releases the inhibitor only for an accepted bin |
| Speaker.RunOne | uiBenno/speaker/speaker.c:611-627 | one queued message: one iteration of the loop handles exactly that message |
| Speaker.InhibitorClearedOnlyOnAcceptance | uiBenno/speaker/speaker.c:682-701 | the inhibitor is cleared exactly by the three transitions into BinAccepted |
| Speaker.ReceiveKeepsInhibitorSound | uiBenno/speaker/speaker.c:591-627 | one event keeps the invariant that the inhibitor is off only where a lift is allowed |
| Speaker.LiftOnlyAfterAcceptance | uiBenno/speaker/speaker.c:867-878 | under the invariant, a lift is queued only in a state where lifting is allowed |
| Speaker.PublicFunctionsKeepInhibitorSound | uiBenno/speaker/speaker.c:810-884 | start-up establishes the invariant and the public functions keep it |
| AdminScanner.Perform | binScanner/adminScanner/adminScanner.c:336-362 | A_NOP posts E_START only from Idle; A_SCAN, A_NSCAN and A_LIFT each post one event; the state is untouched |
| AdminScanner.Table | binScanner/adminScanner/adminScanner.c:155-162 | no cell leads to Forget or Dead, A_NOP is exactly the zero cell, and A_SCAN, A_LIFT and A_NSCAN are each named exactly by their listed cells |
| AdminScanner.Transition | binScanner/adminScanner/adminScanner.c:365-376 | the state becomes the cell's destination and the action runs with the old state |
| AdminScanner.Receive | binScanner/adminScanner/adminScanner.c:378-399 | every received event takes its cell's destination, leaves the running flag alone, and grows the mailbox by one exactly when the action posts |
| AdminScanner.Run | binScanner/adminScanner/adminScanner.c:378-399 | the mailbox stays within capacity and the running flag is unchanged |
| AdminScanner.New | binScanner/adminScanner/adminScanner.c:238-252 | a fresh mailbox and state Idle |
| AdminScanner.StartBinScanner | binScanner/adminScanner/adminScanner.c:254-260 | the thread runs and E_START is queued |
| AdminScanner.StopAndFree | binScanner/adminScanner/adminScanner.c:262-288 | the thread is cancelled and the mailbox emptied |
| AdminScanner.EveryEventTransitions | binScanner/adminScanner/adminScanner.c:155-162 | no cell is skipped by the Forget guard and none leads to Dead |
| AdminScanner.NopPostsStartOnlyFromIdle | binScanner/adminScanner/adminScanner.c:336-344 | a zero cell posts E_START exactly from Idle, and otherwise only resets the state to Idle |
| AdminScanner.ScanCycle | binScanner/adminScanner/adminScanner.c:155-162 | the cells of the scan cycle and the outputs of one scan |
| AdminScanner.CycleOutputsAlternate | binScanner/adminScanner/adminScanner.c:296-318 | the scan cycle alternates forwarding a tag and pausing for the lift |
| AdminScanner.RunStep | binScanner/adminScanner/adminScanner.c:378-399 | one iteration on a single queued event that reads no tag |
| AdminScanner.RunScanStep | binScanner/adminScanner/adminScanner.c:378-399 | one iteration on a single queued event that reads the next tag |
| AdminScanner.CycleLap | binScanner/adminScanner/adminScanner.c:296-318 | from WaitLift, one lap forwards the next tag, pauses, and waits for the next lift with that tag stored |
| AdminScanner.CycleForwardsEveryTag | binScanner/adminScanner/adminScanner.c:378-399 | the running scanner forwards every offered tag in order and keeps the last |
| AdminScanner.StopRestartsScanning | binScanner/adminScanner/adminScanner.c:155-162 | E_STOP leads back to scanning through Idle's zero cell |
| AdminScanner.StrayEmptyTimeHaltsScanning | binScanner/adminScanner/adminScanner.c:155-162 | a stray E_EMPTYTIME while scanning falls into Idle and scanning halts |
| AdminScanner.StartScansFirstTag | binScanner/adminScanner/adminScanner.c:238-260 | a fresh, started scanner scans the first tag |
| AdminScanner.NeverDead | binScanner/adminScanner/adminScanner.c:378-399 | no loop iteration reaches Dead |
| Postman.New | comBenno/postmanBenno/postmanBenno.c:213-237 | a fresh mailbox and state Idle, with the send buffer kept |
| Postman.Table | comBenno/postmanBenno/postmanBenno.c:111-118 | only empty cells name A_NOP; Write is entered only by E_CONNECTED from Idle and kept by E_SEND_MSG; only E_ERROR_COM in Write notifies the disconnection; E_STOP leads from both live states to Death |
| Postman.Perform | comBenno/postmanBenno/postmanBenno.c:390-494 | only A_NOTIFY_DISCONNECTION posts (E_CONNECTED), and the sockets are closed exactly by that action and A_STOP |
| Postman.Transition | comBenno/postmanBenno/postmanBenno.c:331-350 | an empty cell loses the event; otherwise the state becomes the destination and the send buffer is untouched |
| Postman.Receive | comBenno/postmanBenno/postmanBenno.c:352-368 | E_STOP sets Death before any lookup; other events go through the transition |
| Postman.Run | comBenno/postmanBenno/postmanBenno.c:352-368 | the mailbox stays within capacity, and the loop does nothing in Death or with an empty mailbox |
| Postman.Post | comBenno/postmanBenno/postmanBenno.c:380-388 | a send only appends the event |
| Postman.StartRequest | comBenno/postmanBenno/postmanBenno.c:258-262 | E_CONNECTED joins the back of the mailbox and no other field changes |
| Postman.StopRequest | comBenno/postmanBenno/postmanBenno.c:284-288 | E_STOP joins the back of the mailbox and no other field changes |
| Postman.SendMessage | comBenno/postmanBenno/postmanBenno.c:290-295 | the message is copied into the shared buffer with `strncpy` at once and E_SEND_MSG is queued |
| Postman.ReceiveBuffer | comBenno/postmanBenno/postmanBenno.c:303-324 | the receive buffer holds the bytes read over the zero fill |
| Postman.Serve | comBenno/postmanBenno/postmanBenno.c:303-324 | a successful read is dispatched; the dispatcher sees the C string of the bytes read when they fit the buffer, and the first 1000 bytes otherwise |
| Postman.FirstFailure | comBenno/postmanBenno/postmanBenno.c:310-315 | the first read returning less than 1, with every earlier read successful |
| Postman.ReadMsg | comBenno/postmanBenno/postmanBenno.c:303-324 | every read before the first failure is dispatched in order, and the failure posts E_ERROR_COM and ends the loop |
| Postman.RunStep | comBenno/postmanBenno/postmanBenno.c:352-368 | one loop iteration handles the head of the mailbox |
| Postman.LostEventsChangeNothing | comBenno/postmanBenno/postmanBenno.c:111-118 | an empty cell changes nothing; a message sent while Idle is lost |
| Postman.StopEndsLoop | comBenno/postmanBenno/postmanBenno.c:352-368 | E_STOP ends the loop in Death from every live state |
| Postman.StopActionNeverRuns | comBenno/postmanBenno/postmanBenno.c:352-368 | only E_STOP leads to Death and it closes nothing; the sockets are closed only on E_ERROR_COM, posted by a failed read, while in Write |
| Postman.MainPath | comBenno/postmanBenno/postmanBenno.c:111-118 | connecting opens the link, and each send in Write writes the whole shared buffer |
| Postman.ReconnectQueuedBehind | comBenno/postmanBenno/postmanBenno.c:459-478 | an error returns to Idle and queues the reconnection behind every pending message |
| Postman.MessageLostAcrossReconnect | comBenno/postmanBenno/postmanBenno.c:459-478 | a message queued before the error is lost, and the link is reopened |
| Postman.SendMessageCopies | comBenno/postmanBenno/postmanBenno.c:290-295 | the buffer reads back as the message cut to 1000 characters and is zero-filled after it |
| Postman.LatestBufferWins | comBenno/postmanBenno/postmanBenno.c:290-295 | two messages sent before the writer runs are both written as the second |
| Postman.RunStaysLive | comBenno/postmanBenno/postmanBenno.c:352-368 | no iteration enters Forget and the loop never changes the send buffer |
| Postman.ZeroFillKeepsCalls | comBenno/postmanBenno/postmanBenno.c:303-324 | the zero-filled buffer makes the same dispatcher call as the bytes read |
| Postman.ZeroFillKeepsTag | comBenno/postmanBenno/postmanBenno.c:303-324 | the zero fill keeps the tag |
| Postman.ZeroFillKeepsPayloadText | comBenno/postmanBenno/postmanBenno.c:303-324 | the zero fill keeps the payload's C string |
| Postman.ReaderExamples | comBenno/postmanBenno/postmanBenno.c:303-324 | a failing first read yields only E_ERROR_COM; reads that all succeed are each dispatched |
| Dispatcher.Tag | comBenno/dispatcherBenno/dispatcherBenno.c:41-44 | the tag is at most four characters, NUL-free, and equal to the message's leading characters |
| Dispatcher.Payload | comBenno/dispatcherBenno/dispatcherBenno.c:60-73 | the payload is the message after its first five characters |
| Dispatcher.Chain | comBenno/dispatcherBenno/dispatcherBenno.c:45-83 | the else-chain makes at most one call, and none exactly when the tag is not one of ACKN, DATI, TOUR, REST and WAKE |
| Dispatcher.SetMsg | comBenno/dispatcherBenno/dispatcherBenno.c:41-91 | at most one call per message, and no call exactly when the tag is unknown |
| Dispatcher.HandlerSelection | comBenno/dispatcherBenno/dispatcherBenno.c:45-83 | each of the seven tags selects its handler, in both directions |
| Dispatcher.CallsDependOnTagAndPayloadText | comBenno/dispatcherBenno/dispatcherBenno.c:41-91 | the call depends only on the tag and the payload's C string |
| Dispatcher.TagIsFirstFour | comBenno/dispatcherBenno/dispatcherBenno.c:41-44 | four NUL-free leading characters are the tag |
| Dispatcher.FifthCharacterIgnored | comBenno/dispatcherBenno/dispatcherBenno.c:41-91 | the separator character is never read |
| Dispatcher.ShortTagIgnored | comBenno/dispatcherBenno/dispatcherBenno.c:84-90 | a NUL in the first four characters means no call |
| Dispatcher.DateTimePayload | comBenno/dispatcherBenno/dispatcherBenno.c:60-66 | DATI hands the clock a 500-character buffer reading back as the payload cut to 500 characters |
| Dispatcher.DateTimeTextCarried | comBenno/dispatcherBenno/dispatcherBenno.c:60-66 | a terminated date text is carried exactly |
| Dispatcher.DateTimeMessageCarriesTime | comBenno/dispatcherBenno/dispatcherBenno.c:60-66 | a DATI message carrying a rendered time hands the clock maker a buffer that parses back to that time, and the command built from it is the prefix followed by that text, unquoted |
| Dispatcher.TourPayload | comBenno/dispatcherBenno/dispatcherBenno.c:67-73 | TOUR hands over the payload's C string, which is no longer than the payload |
| Proxy.Frame | comBenno/proxyTourDirector/proxyTourDirector.c:30-44 | the frame is the prefix then the payload, read back as one C string |
| Proxy.SetCurrentBinData | comBenno/proxyTourDirector/proxyTourDirector.c:30-36 | one STEP frame is handed to the postman |
| Proxy.SetCurrentTourData | comBenno/proxyTourDirector/proxyTourDirector.c:38-44 | one TOUR frame is handed to the postman |
| Proxy.SendFrameWhole | comBenno/postmanBenno/postmanBenno.c:290-295 | copying a frame into the send buffer keeps it whole |
| Proxy.SplitRecoversPayload | comBenno/dispatcherBenno/dispatcherBenno.c:41-73 | the dispatcher's split of a frame recovers the tag and the payload |
| Proxy.TourFrameRoundTrip | comBenno/dispatcherBenno/dispatcherBenno.c:67-73 | a TOUR frame read back sets exactly the tour it carried |
| Proxy.BinFrameNotDispatched | comBenno/dispatcherBenno/dispatcherBenno.c:84-90 | a STEP frame read back makes no call |
| Proxy.BinReportWritten | comBenno/postmanBenno/postmanBenno.c:448-457 | once the link is up, a bin report frame is written as it stands |

## Left out

- The sockets are not modelled: Bluetooth RFCOMM setup, `accept`, `write` and `close`
  appear only as outputs (`OpenLink`, `WriteFrame`, `CloseSockets`).
- Thread creation, cancellation and `pthread_detach` are reduced to a running flag or to
  outputs. Concurrency is reduced to the order of mailbox messages: callers' stores to
  shared statics happen at call time and the loop reads them later.
- `mq_open` and `mq_unlink` failures, and the `PERROR` traces, are left out. The name
  tables used for tracing are left out too.
- A blocking `mq_send` on a full queue is not modelled: API functions require room in the
  mailbox.
- JSON is left out: the json-c objects are not modelled. A tour is a sequence of records
  whose state is the JSON text. The proxy takes the serialised text as its payload.
- `destroyTourData` (tourManager.c:783-786) sets the current tour to NULL. The model
  represents this as the empty tour, which `TourManager.Perform` sets on A_ENTERACTIVE.
- `writeTourData` (dispatcherBenno.c:93-98) also writes the parsed tour to
  `./myCurrentTourData.json`. That file write is not modelled, because file I/O is
  outside the model; the parse is the `SetInitialTourData` call.
- `TourManager_requestToStopTools` calls `exit()` outside the testing build. It appears
  as the `StopTools` output; what it stops in the testing build is not modelled.
- Speaker.StopBennoRequest: in the production build the `exit()` in
  `TourManager_requestToStopTools` ends the process, so E_STOP_BENNO is never queued.
  The model returns the object unchanged for that build. It does not model the end of
  the process.
- The watchdog internals and the LEDs and sleeps are left out. Arming and cancelling the
  watchdog, and each signal shown, are outputs.
- Scanner hardware (`Scanner_askIdBin`) is not modelled: the next tag is an input.
- `scales.c`'s GPIO setup in `Scales_new` and `Scales_free` is hardware set-up and is not
  modelled. The pin levels read are a list of samples.
- The local time is an input: `time`/`localtime` become the `Env.now` field.
- `system("sudo date -s …")` is not run. `SetClockCommand` builds the command text only.
- ClockMaker.SetClockCommand: the date text is not quoted, so the shell passes the date
  and the time to `date -s` as two arguments and the clock is not set to that time. The
  model builds the text as written and does not model the shell. ClockCommandOfTime
  states the unquoted space.
- ClockMaker.SetClockCommand: the `strcat` into a 500-character buffer can overflow once
  the date text exceeds 486 characters. The model keeps the whole text instead.
- Dispatcher.SetMsg: for TOUR the source moves `MAX_BUFFER_SIZE` bytes starting 5 into the
  buffer, so it reads 5 bytes past its end. The model takes the C string from index 5.
- TourManager.Run: the loop runs on up to one input per iteration, so it covers a bounded
  number of iterations. The same holds for Speaker.Run, AdminScanner.Run and Postman.Run,
  which run up to `n` iterations.
- TourData.UpdateBinData: when the id matches, the source adds the date and weight to
  the tour's own json-c record and appends that same object. A bin collected twice
  therefore shares one object, and its later collection overwrites the earlier report.
  The model builds each report as a separate value.
- Proxy.SetCurrentBinData, Proxy.SetCurrentTourData: the JSON text must be at most 994
  characters, the room left after the 5-character prefix and the terminator. A longer
  text makes the source's `strncat`, which is bounded by the whole buffer's size instead
  of the room left, write past the end of the 1000-character frame buffer. That overrun
  is not modelled. The JSON text is NUL-free, as any C string `json-c` returns.
- Postman.ReadMsg: the loop covers the reads that happen before the thread is cancelled.
  Cancellation in the middle of a read is not modelled.
- The weight reaches the tour manager as `Env.weight` when `A_ASKWEIGHT` runs. Its type
  bounds it to 0..500, the range `getWeight` returns. TourManager.ScalesAskWeight
  composes `Scales.GetWeight` with the store, and the run loop uses the `Env` value.
- `PostmanBenno_free`, `PostmanBenno_createWritingPthread` and
  `PostmanBenno_createReadingPthread` only manage threads and are not modelled.
- `main.c` start-up and shutdown wiring is not modelled, nor are the button-polling
  modules `forcingButton`, `liftingButton` and `stopButton`.
