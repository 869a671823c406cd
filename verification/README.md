# Welder GUI serial session controller

This project models the host side of the CNC spot-welder's serial session, as implemented in `Welder_GUI.py`. It covers:

- the connect/disconnect button and its port handling;
- the jog, homing, start, stop and pause handlers;
- the command lines they write to the controller;
- the polling thread, which watches the port, reads status lines, strips and classifies them, and updates the job globals, the widgets and the labels;
- the detection of a lost connection.

The model is in five modules:

- `Outbound` (outbound.dfy): the commands the GUI writes, how one command is framed as one `\n`-terminated line, and the parser that reads a line back.
- `Inbound` (inbound.dfy): one received status line.
  - The terminator is stripped.
  - The line is split on spaces with Python's `split(' ')` semantics: empty fields are kept.
  - The line is classified in the order the polling thread tests it.
- `Session` (session.dfy): the whole session as one value.
  - The serial link, the globals `finished`, `paused`, `wasOpen` and `safeDisconnect`, the widget states, the labels, the commands written and the error dialogs shown.
  - One transition function per handler and per iteration of the polling thread.
  - `Step` and `Run` replay a sequence of operator actions and polling iterations. A Tk button only fires while it is enabled, so `Step` gates each button click on its button's state.
- `SessionProperties` (properties.dfy): properties that span several calls.
- `WelderGui` (welder_gui.dfy): the class `Welder`.
  - Its fields are the state the handlers update in place.
  - Its methods mirror the handlers statement by statement.
  - `PollStep` is the body of the polling loop, and `RunPoller` is the loop itself.
  - Each method is proved to move the object's `Snapshot()` exactly as the matching `Session` function says.
  - Each handler method, `Handle`, `PollStep` and `RunPoller` also keep the invariant `Valid()`: pause and stop are enabled together, and only while a job is unfinished. The helpers `Write`, `EnableControl` and `DisableControl` are called inside handlers, where the invariant may not hold yet, and only state their transition.

Inputs from outside the program are parameters:

- the answer to a confirmation dialog (`confirmed`);
- whether `ser.open()` succeeds (`opens`);
- the text of a step-size entry;
- what one iteration of the polling thread finds on the port: nothing waiting, one line, or a serial error (`PortRead`).

Behaviour of the code that the model keeps, and that the lemmas make explicit:

- The closed-port branch of the polling loop reports a loss at most once per open-to-closed edge it sees, and never for the user's own disconnect (`ClosedPollsReportAtMostOnce`, `UserDisconnectIsSilent`). A serial error adds the error handler's own report and leaves `wasOpen` set, so it is reported twice. This holds for any open port with the polling thread alive (`ReadFailureReportedTwice`), and so in every state reachable from program start (`ReadFailureAnywhereReportedTwice`).
- Only the connect button and a serial error close the port (`PortClosesOnlyByUserOrReadFailure`). The closed-port branch of the polling loop therefore never gives the first report of a loss. It only repeats the error handler's report, or reports a user disconnect after a failed reconnect.
- A failed reconnect attempt clears `safeDisconnect`. A user disconnect that the polling thread has not yet noticed is then reported as a lost connection (`FailedReconnectReportsUserDisconnect`).
- Every `ESTOP` line shows its dialog again; repeated lines are not collapsed (`EStopAlertsEveryTime`).
- A progress line `R…` with fewer than two fields still sets the status label to "Running", and leaves pass and cell unchanged.
- The homing handlers check only `finished`. They do not check the port, `paused` or the status label.
- The jog handlers send the step text unchecked. Nothing makes it numeric or positive, and a text starting with `-` makes a positive jog identical to a negative one (`JogSignAmbiguity`). A step text holding a newline writes more than one line: the controller reads a Move with the text before the newline, then the rest as a line of its own (`JogNewlineSplitsLine`).
- A blank status line (`\r\n` or `\n`) raises an IndexError that the loop's handler does not catch. The polling thread ends for good, and no later `finished`, progress line, `ESTOP` or lost connection is ever handled (`BlankLineEndsPoller`).
- There is no separate job-state machine. The state is spread over `finished`, `paused`, the widget states and the status label.
- A connection lost at any point of a job (after progress lines, while paused, after a resume) leaves `finished` false with stop and pause disabled. Start and homing do nothing until the controller sends `finished` (`JobInterruptedByLoss`).
- `finish()` never clears `paused`. When a paused job receives `finished`, the next job starts out paused, and the first press of its pause button resumes and writes `continue` (`PauseSurvivesFinish`).

## Model

| member | source | states |
|---|---|---|
| Outbound.Encode | Welder_GUI.py:186 | a command's line ends in `\n`, and a well-formed command has no other `\n` in its line |
| Outbound.DecodeEncode | Welder_GUI.py:186 | reading back the line written for any well-formed command gives that command |
| Outbound.EncodeDecode | Welder_GUI.py:186-316 | a line that reads back as a command is exactly that command's framing, so no two commands share a line |
| Outbound.FormatJog | Welder_GUI.py:186-216 | a jog line whose entry text holds no newline reads back as a Move on the jogged axis carrying the entry text, with `-` prepended for the negative direction; one whose text holds a newline does not read back as one command |
| Outbound.JogNewlineSplitsLine | Welder_GUI.py:185-186 | a step text `pre\npost` writes the whole line of the Move carrying `pre`, followed by `post` and a newline |
| Outbound.JogSignAmbiguity | Welder_GUI.py:186-196 | a positive jog whose text starts with `-` writes the same line as the negative jog of the rest |
| Inbound.StripTerminator | Welder_GUI.py:362-365 | the result is a prefix of the line: one trailing `\r\n` is removed, else one trailing `\n`, else nothing |
| Inbound.StripFramed | Welder_GUI.py:362-365 | a text framed with `\r\n`, or with `\n` when it does not end in `\r`, is recovered exactly |
| Inbound.Split | Welder_GUI.py:372 | splitting yields at least one field, and no field contains the separator |
| Inbound.JoinSplit | Welder_GUI.py:372 | joining the fields of a split with the separator gives back the text |
| Inbound.SplitJoin | Welder_GUI.py:372 | splitting undoes joining when no field holds the separator |
| Inbound.SplitHasTwoFields | Welder_GUI.py:372-375 | a split has at least two fields exactly when the text holds the separator |
| Inbound.Classify | Welder_GUI.py:367-385 | each event holds exactly when the line is `finished`, empty, starts with `R`, `paused`, `ESTOP` or `idle`; a progress line's fields are free of spaces and join back to the text after the `R`, so with `SplitJoin` they are exactly its split |
| Inbound.ProgressRoundTrip | Welder_GUI.py:362-378 | the report `R<pass> <cell>\r\n` is read as exactly the fields pass and cell |
| Session.Initial | Welder_GUI.py:8-9 | the port is closed, no job is running, every control is disabled, nothing has been written, and the invariant holds |
| Session.Jog | Welder_GUI.py:178-216 | with the port open and the jog buttons enabled: an empty entry gives one "no step size" dialog, otherwise exactly one Move is written; otherwise nothing changes |
| Session.Home | Welder_GUI.py:246-265 | the homing command is written iff no job is running and the port is open; nothing else changes |
| Session.Start | Welder_GUI.py:267-284 | unless confirmed with no job running nothing changes; otherwise the job is unfinished, pause and stop replace start, the controls are off and `runSeries` is written if the port is open; nothing else changes |
| Session.Stop | Welder_GUI.py:286-300 | the job is finished and unpaused, controls and start are on, pause and stop off, and `stop` is written if the port is open; link, labels and dialogs are unchanged |
| Session.Pause | Welder_GUI.py:302-316 | pausing writes `pause` and enables the controls and the start button; a confirmed resume writes `continue` and disables them; an unconfirmed resume changes nothing; job flag, link, labels, dialogs, pause and stop buttons never change |
| Session.LostConnection | Welder_GUI.py:318-325 | every button but connect is disabled, the status label reads "Lost Connection" and one "connection lost" dialog is added; nothing else changes |
| Session.Finish | Welder_GUI.py:327-336 | the job is finished, start is back, pause, stop and progress are hidden; nothing else changes |
| Session.Connect | Welder_GUI.py:221-244 | the port ends open iff it was closed, a name was given and the open succeeded; `safeDisconnect` ends set iff it was a disconnect; the port name is replaced only when connecting; a disconnect shows "Disconnected" and disables the controls, a successful open enables them; the dialogs are no-port or could-not-open as the code orders them; job flags, labels and log are unchanged |
| Session.Apply | Welder_GUI.py:367-385 | `finished` is the finish transition; a progress line shows "Running" and updates pass and cell iff it has two fields; `paused`, `idle` and `ESTOP` set their status text, `ESTOP` adding one dialog; any other line changes nothing; only an empty line stops the thread |
| Session.Poll | Welder_GUI.py:349-389 | on a closed port, a loss is reported iff the port was seen open and the close was not the user's; on an open port `wasOpen` is set, and then: no data changes nothing else, a read failure is the lost-connection transition plus closing the port, an empty read ends the thread, and any other line has the effect of its stripped, classified form |
| SessionProperties.StepPreservesInv | Welder_GUI.py:267-336 | every action keeps pause and stop enabled together, and only while a job is unfinished |
| SessionProperties.RunPreservesInv | Welder_GUI.py:267-336 | any sequence of actions keeps the invariant |
| SessionProperties.ClosedPollsReportAtMostOnce | Welder_GUI.py:352-357 | any number of iterations on a closed port report the loss at most once, and only on a non-user close of a port seen open |
| SessionProperties.DeadPollerIgnoresAll | Welder_GUI.py:349-389 | once the polling thread has ended, any sequence of inputs leaves the state unchanged |
| SessionProperties.BlankLineEndsPoller | Welder_GUI.py:362-389 | a blank status line on an open port ends the polling thread, changing nothing else but `wasOpen`, and no later input has any effect |
| SessionProperties.UserDisconnectIsSilent | Welder_GUI.py:224-226 | after a user disconnect, the polling thread never reports a lost connection |
| SessionProperties.ReadFailureReportedTwice | Welder_GUI.py:352-389 | a serial error on an open port, not closed by the user, reports the loss twice: once in the error handler and once on the next iteration |
| SessionProperties.StepKeepsOpenNotUserClosed | Welder_GUI.py:224-231 | every action keeps `safeDisconnect` clear while the port is open |
| SessionProperties.RunKeepsOpenNotUserClosed | Welder_GUI.py:224-231 | any sequence of actions keeps `safeDisconnect` clear while the port is open |
| SessionProperties.ReadFailureAnywhereReportedTwice | Welder_GUI.py:352-389 | in every state reachable from program start with the port open, a serial error is reported twice |
| SessionProperties.PortClosesOnlyByUserOrReadFailure | Welder_GUI.py:221-389 | an action closes an open port only as a user disconnect, which sets `safeDisconnect` and shows nothing, or as a serial error, which reports the loss and leaves `wasOpen` set |
| SessionProperties.FailedReconnectReportsUserDisconnect | Welder_GUI.py:231-241 | a failed reconnect after an unnoticed user disconnect makes the next iteration report a lost connection |
| SessionProperties.PollKeepsJobBlocked | Welder_GUI.py:349-389 | a polling iteration that delivers no `finished` line keeps an unfinished job unfinished, with stop disabled, and writes nothing |
| SessionProperties.UnfinishedJobStaysBlocked | Welder_GUI.py:273 | while the job is unfinished and stop is disabled, nothing short of a `finished` line ends the job, enables stop or pause, or writes `runSeries` again |
| SessionProperties.JobInterruptedByLoss | Welder_GUI.py:387-389 | a serial error at any point of an unfinished job (running, paused or resumed) leaves it unfinished with stop and pause disabled and no new `runSeries`, whatever the operator does, reconnecting included |
| SessionProperties.PauseSurvivesFinish | Welder_GUI.py:302-336 | a job paused when `finished` arrives leaves `paused` set, so the next job's first pause press writes `continue` when confirmed and nothing otherwise |
| SessionProperties.PausedJobIgnoresStartAndHome | Welder_GUI.py:313-315 | pausing a running job enables the hidden start button and the homing buttons, and clicking either changes nothing |
| SessionProperties.PauseThenResume | Welder_GUI.py:302-316 | pause then a confirmed resume writes `pause` then `continue`, and leaves the job unpaused with the controls disabled |
| SessionProperties.ProgressPoll | Welder_GUI.py:370-378 | a progress line shows Running and sets pass and cell to its first two fields iff the text holds a space |
| SessionProperties.ProgressLatestWins | Welder_GUI.py:370-378 | `R<pass> <cell>` shows exactly that pass and cell, whatever was shown before |
| SessionProperties.FinishedLinePoll | Welder_GUI.py:367-369 | a `finished` line ends the job, brings start back, disables pause and stop, and writes and shows nothing |
| SessionProperties.EStopLinePoll | Welder_GUI.py:381-383 | an `ESTOP` line shows Emergency Stop and adds one emergency-stop dialog |
| SessionProperties.EStopAlertsEveryTime | Welder_GUI.py:381-383 | two `ESTOP` lines show two emergency-stop dialogs |
| SessionProperties.WeldingSession | Welder_GUI.py:221-389 | connect, start, a progress report and `finished` write exactly `runSeries`, show pass 3 and cell 7, and bring the start button back with no dialog |
| WelderGui.Welder.constructor | Welder_GUI.py:150-153 | the object starts in the initial session state |
| WelderGui.Welder.Write | Welder_GUI.py:186 | a command is appended to the written log iff the port is open |
| WelderGui.Welder.EnableControl | Welder_GUI.py:156-165 | the controls and start become enabled |
| WelderGui.Welder.DisableControl | Welder_GUI.py:167-176 | the controls and start become disabled |
| WelderGui.Welder.JogAxis | Welder_GUI.py:178-186 | the new state is the jog transition of the old one |
| WelderGui.Welder.YLeft | Welder_GUI.py:178-186 | the positive Y jog transition, keeping the invariant |
| WelderGui.Welder.YRight | Welder_GUI.py:188-196 | the negative Y jog transition, keeping the invariant |
| WelderGui.Welder.ZUp | Welder_GUI.py:198-206 | the positive Z jog transition, keeping the invariant |
| WelderGui.Welder.ZDown | Welder_GUI.py:208-216 | the negative Z jog transition, keeping the invariant |
| WelderGui.Welder.Connect | Welder_GUI.py:221-244 | the new state is the connect transition of the old one |
| WelderGui.Welder.HomeY | Welder_GUI.py:246-251 | the Y homing transition |
| WelderGui.Welder.HomeZ | Welder_GUI.py:253-258 | the Z homing transition |
| WelderGui.Welder.HomeAll | Welder_GUI.py:260-265 | the home-all transition |
| WelderGui.Welder.Start | Welder_GUI.py:267-284 | the start transition |
| WelderGui.Welder.Stop | Welder_GUI.py:286-300 | the stop transition |
| WelderGui.Welder.Pause | Welder_GUI.py:302-316 | the pause/resume transition: pausing enables controls and start and writes `pause`, a confirmed resume disables them and writes `continue`, nothing else changes |
| WelderGui.Welder.LostConnection | Welder_GUI.py:318-325 | the lost-connection transition |
| WelderGui.Welder.Finish | Welder_GUI.py:327-336 | the finish transition |
| WelderGui.Welder.Handle | Welder_GUI.py:367-385 | the effect of one classified line, as `Session.Apply` states it case by case |
| WelderGui.Welder.PollStep | Welder_GUI.py:351-389 | one iteration of the polling loop, as `Session.Poll` states it for a closed port, no data, a read failure, an empty read and a received line |
| WelderGui.Welder.RunPoller | Welder_GUI.py:345-389 | the loop over successive reads ends in the state the reads give one after another, keeping the invariant |

## Left out

- Tk layout, colours, fonts, button texts ("Connect"/"Disconnect", "Pause"/"Resume") and pack/grid placement: presentation only. Packing does not always follow the enabled state: pausing enables the start button while it is still hidden (Welder_GUI.py:281, 315), and a lost connection disables pause and stop while they stay shown. The model tracks only the enabled state, and `Step` lets a click reach an enabled button; `PausedJobIgnoresStartAndHome` shows that such a start click does nothing.
- The modal wait of message boxes: a dialog is modelled as an entry appended to `alerts`. The polling thread blocking on the emergency-stop dialog is not modelled.
- Threading, `time.sleep(0.1)`, the `end` flag and races between the Tk thread and the polling thread. The model interleaves whole handler calls and whole loop iterations. `RunPoller` runs as many iterations as it is given reads.
- pyserial itself: the outcome of `ser.open()`, of `in_waiting` and of `readline` are parameters. A write on a closed port is modelled as writing nothing; pyserial raises there, and because each handler writes last, its earlier updates stay.
- Send: a `ser.write` that fails on an open port (a device removed mid-write) is not modelled; the command is logged as written.
- Encode: gives the characters of a line, not its bytes. The jog text is encoded as UTF-8 (Welder_GUI.py:186), so a non-ASCII step text writes more bytes than it has characters.
- ASCII decoding: a line is a `string`, and a `UnicodeDecodeError` on non-ASCII bytes (which would also end the thread) is not modelled.
- `refreshConnections` (Welder_GUI.py:218-219) and the port list of the combo box: they depend on the operating system's port enumeration.
- `print` calls, and the fields `yStepSizeVal`/`zStepSizeVal`, which only carry the entry text into the write that follows.
- Spot_Welder/Axis.h, the firmware side, is not part of this model.
