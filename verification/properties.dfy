// Properties of the session model that span several handler calls or
// polling iterations.

module SessionProperties {
  import opened Outbound
  import opened Inbound
  import opened Session

  /** Every handler and every polling iteration keeps the invariant. */
  lemma StepPreservesInv(s: State, act: Action)
    requires Inv(s)
    ensures Inv(Step(s, act))
  {
  }

  lemma {:induction false} RunPreservesInv(s: State, acts: seq<Action>)
    requires Inv(s)
    ensures Inv(Run(s, acts))
    decreases |acts|
  {
    if acts != [] {
      StepPreservesInv(s, acts[0]);
      RunPreservesInv(Step(s, acts[0]), acts[1..]);
    }
  }

  /** Loss detection is edge-triggered: however many iterations run while
      the port stays closed, the loss is reported at most once, only when
      the port had been seen open and the close was not the user's, and
      `wasOpen` is cleared by the first of them. */
  lemma {:induction false} ClosedPollsReportAtMostOnce(s: State, inputs: seq<PortRead>)
    requires !s.link.isOpen
    ensures var r := PollAll(s, inputs);
      !r.link.isOpen && r.link.pollerAlive == s.link.pollerAlive &&
      r.link.safeDisconnect == s.link.safeDisconnect && r.written == s.written &&
      r.alerts == s.alerts +
        (if inputs != [] && s.link.pollerAlive && s.link.wasOpen && !s.link.safeDisconnect
         then [ConnectionLost] else []) &&
      (inputs != [] && s.link.pollerAlive ==> !r.link.wasOpen) &&
      (inputs == [] || !s.link.pollerAlive ==> r.link.wasOpen == s.link.wasOpen)
    decreases |inputs|
  {
    if inputs != [] {
      ClosedPollsReportAtMostOnce(s, inputs[..|inputs| - 1]);
    }
  }

  /** Once the polling thread has ended, no later input has any effect. */
  lemma {:induction false} DeadPollerIgnoresAll(s: State, inputs: seq<PortRead>)
    requires !s.link.pollerAlive
    ensures PollAll(s, inputs) == s
    decreases |inputs|
  {
    if inputs != [] {
      DeadPollerIgnoresAll(s, inputs[..|inputs| - 1]);
    }
  }

  /** A blank status line (`\r\n` or `\n`) raises an IndexError that the
      loop's handler does not catch: the polling thread ends for good, and
      no later `finished`, progress line, `ESTOP` or lost connection is
      ever handled. */
  lemma BlankLineEndsPoller(s: State, blank: string, inputs: seq<PortRead>)
    requires s.link.isOpen && s.link.pollerAlive
    requires blank == "\r\n" || blank == "\n"
    ensures var d := Poll(s, Received(blank));
      !d.link.pollerAlive && d == s.(link := s.link.(wasOpen := true, pollerAlive := false)) &&
      PollAll(d, inputs) == d
  {
    StripFramed("");
    DeadPollerIgnoresAll(Poll(s, Received(blank)), inputs);
  }

  /** A disconnect through the connect button is never reported as a lost
      connection by the polling thread, however long it runs. */
  lemma UserDisconnectIsSilent(s: State, portName: string, opens: bool, inputs: seq<PortRead>)
    requires s.link.isOpen
    ensures PollAll(Connect(s, portName, opens), inputs).alerts == s.alerts
  {
    ClosedPollsReportAtMostOnce(Connect(s, portName, opens), inputs);
  }

  /** A serial error while reading is reported by the error handler, which
      closes the port but leaves `wasOpen` set; the next iteration then sees
      an open-to-closed edge with `safeDisconnect` false and reports the same
      loss a second time. */
  lemma ReadFailureReportedTwice(s: State, next: PortRead)
    requires s.link.isOpen && s.link.pollerAlive && !s.link.safeDisconnect
    ensures PollAll(s, [ReadFailed, next]).alerts == s.alerts + [ConnectionLost, ConnectionLost]
  {
    assert [ReadFailed, next][..1] == [ReadFailed];
    assert PollAll(s, [ReadFailed]) == Poll(s, ReadFailed);
  }

  /** While the port is open, `safeDisconnect` is clear: only a disconnect
      sets it, and every connect attempt clears it. */
  predicate OpenNotUserClosed(s: State)
  {
    s.link.isOpen ==> !s.link.safeDisconnect
  }

  lemma StepKeepsOpenNotUserClosed(s: State, act: Action)
    requires OpenNotUserClosed(s)
    ensures OpenNotUserClosed(Step(s, act))
  {
  }

  lemma {:induction false} RunKeepsOpenNotUserClosed(s: State, acts: seq<Action>)
    requires OpenNotUserClosed(s)
    ensures OpenNotUserClosed(Run(s, acts))
    decreases |acts|
  {
    if acts != [] {
      StepKeepsOpenNotUserClosed(s, acts[0]);
      RunKeepsOpenNotUserClosed(Step(s, acts[0]), acts[1..]);
    }
  }

  /** Whatever the operator and the controller did since program start, a
      serial error on the open port is reported twice. */
  lemma ReadFailureAnywhereReportedTwice(acts: seq<Action>, next: PortRead)
    requires Run(Initial(), acts).link.isOpen && Run(Initial(), acts).link.pollerAlive
    ensures var s := Run(Initial(), acts);
      PollAll(s, [ReadFailed, next]).alerts == s.alerts + [ConnectionLost, ConnectionLost]
  {
    RunKeepsOpenNotUserClosed(Initial(), acts);
    ReadFailureReportedTwice(Run(Initial(), acts), next);
  }

  /** Only the connect button and a serial error close an open port. The
      button sets `safeDisconnect` and shows nothing; the error reports the
      loss itself and leaves `wasOpen` set. So the closed-port branch of the
      polling loop never gives the first report of a loss: it repeats the
      error handler's report, or reports a user disconnect whose
      `safeDisconnect` a failed reconnect cleared. */
  lemma PortClosesOnlyByUserOrReadFailure(s: State, act: Action)
    requires s.link.isOpen
    ensures var r := Step(s, act);
      !r.link.isOpen ==>
        (act.ClickConnect? && r.link.safeDisconnect && r.alerts == s.alerts) ||
        (act == PollTick(ReadFailed) && r.link.wasOpen && r.alerts == s.alerts + [ConnectionLost])
  {
  }

  /** A reconnect attempt that fails (no port named, or the open fails)
      clears `safeDisconnect` even though the port stayed closed; if it comes
      after a user disconnect that the polling thread has not yet seen, the
      next iteration reports that disconnect as a lost connection. */
  lemma FailedReconnectReportsUserDisconnect(s: State, p1: string, o1: bool, p2: string, o2: bool, read: PortRead)
    requires s.link.isOpen && s.link.wasOpen && s.link.pollerAlive
    requires p2 == [] || !o2
    ensures var r := Poll(Connect(Connect(s, p1, o1), p2, o2), read);
      r.alerts == s.alerts + [if p2 == [] then NoPortSelected else CouldNotOpen, ConnectionLost] &&
      r.status == Lost
  {
  }

  /** No action in `acts` delivers a `finished` line. */
  predicate NoFinishedLine(acts: seq<Action>)
  {
    forall i :: 0 <= i < |acts| ==>
      !(acts[i].PollTick? && acts[i].read.Received? && acts[i].read.raw != [] &&
        Classify(StripTerminator(acts[i].read.raw)) == FinishedLine)
  }

  /** `t` extends the write log of `s` without another `runSeries`. */
  predicate NoNewRun(s: State, t: State)
  {
    |s.written| <= |t.written| && t.written[..|s.written|] == s.written &&
    RunSeries !in t.written[|s.written|..]
  }

  /** A log that grows by nothing or by one command other than `runSeries`
      holds no new `runSeries`. */
  lemma NoNewRunByAppend(s: State, t: State, extra: seq<Command>)
    requires t.written == s.written + extra && RunSeries !in extra
    ensures NoNewRun(s, t)
  {
    assert t.written[..|s.written|] == s.written;
    assert t.written[|s.written|..] == extra;
  }

  /** One polling iteration that does not deliver `finished` leaves an
      unfinished job with stop disabled as it was, and writes nothing. */
  lemma PollKeepsJobBlocked(s: State, read: PortRead)
    requires Inv(s) && !s.finished && !s.panel.stopEnabled
    requires !(read.Received? && read.raw != [] &&
               Classify(StripTerminator(read.raw)) == FinishedLine)
    ensures var r := Poll(s, read);
      !r.finished && !r.panel.stopEnabled && r.written == s.written
  {
    if s.link.pollerAlive && s.link.isOpen && read.Received? && read.raw != [] {
      var e := Classify(StripTerminator(read.raw));
      assert e != FinishedLine;
    }
  }

  /** One step of `UnfinishedJobStaysBlocked`. */
  lemma StepKeepsJobBlocked(s: State, act: Action)
    requires Inv(s) && !s.finished && !s.panel.stopEnabled
    requires !(act.PollTick? && act.read.Received? && act.read.raw != [] &&
               Classify(StripTerminator(act.read.raw)) == FinishedLine)
    ensures var r := Step(s, act);
      !r.finished && !r.panel.stopEnabled && NoNewRun(s, r)
  {
    var r := Step(s, act);
    match act
    case ClickConnect(p, o) =>
      NoNewRunByAppend(s, r, []);
    case ClickStart(c) =>
      NoNewRunByAppend(s, r, []);
    case ClickStop =>
      NoNewRunByAppend(s, r, []);
    case ClickPause(c) =>
      NoNewRunByAppend(s, r, []);
    case ClickHome(t) =>
      NoNewRunByAppend(s, r, []);
    case JogKey(a, neg, text) =>
      NoNewRunByAppend(s, r, r.written[|s.written|..]);
    case PollTick(read) =>
      PollKeepsJobBlocked(s, read);
      NoNewRunByAppend(s, r, []);
  }

  /** While a job is marked unfinished and the stop button is disabled, no
      button press, jog, reconnect or status line other than `finished`
      can end the job, enable stop or pause, or write `runSeries` again. */
  lemma {:induction false} UnfinishedJobStaysBlocked(s: State, acts: seq<Action>)
    requires Inv(s) && !s.finished && !s.panel.stopEnabled
    requires NoFinishedLine(acts)
    ensures var r := Run(s, acts);
      !r.finished && !r.panel.stopEnabled && !r.panel.pauseEnabled && NoNewRun(s, r)
    decreases |acts|
  {
    if acts != [] {
      var s1 := Step(s, acts[0]);
      StepKeepsJobBlocked(s, acts[0]);
      StepPreservesInv(s, acts[0]);
      assert NoFinishedLine(acts[1..]) by {
        forall i | 0 <= i < |acts[1..]| ensures acts[1..][i] == acts[i + 1] { }
      }
      UnfinishedJobStaysBlocked(s1, acts[1..]);
      var r := Run(s1, acts[1..]);
      assert r.written[|s.written|..] == s1.written[|s.written|..] + r.written[|s1.written|..];
    }
  }

  /** The connection lost during a job: whenever a serial error hits an
      unfinished job, after progress lines, while paused or after a resume,
      the job stays unfinished and nothing can start a new one until the
      controller sends `finished`, whatever the operator does, reconnecting
      included. */
  lemma JobInterruptedByLoss(s: State, acts: seq<Action>)
    requires Inv(s) && !s.finished && s.link.isOpen && s.link.pollerAlive
    requires NoFinishedLine(acts)
    ensures var t := Poll(s, ReadFailed);
      var r := Run(t, acts);
      !r.finished && !r.panel.stopEnabled && !r.panel.pauseEnabled && NoNewRun(t, r)
  {
    UnfinishedJobStaysBlocked(Poll(s, ReadFailed), acts);
  }

  /** Pausing and then confirming the resume gives back the unpaused job:
      `pause` then `continue` go out and the controls end up disabled. */
  lemma PauseThenResume(s: State)
    requires !s.paused
    ensures var r := Pause(Pause(s, true), true);
      !r.paused && !r.panel.controlsEnabled && r.finished == s.finished &&
      r.written == s.written + (if s.link.isOpen then [PauseJob, ContinueJob] else [])
  {
  }

  /** Pausing a running job enables the start button (still hidden behind
      pause and stop) and the homing buttons, but pressing them does
      nothing: both handlers first check `finished`, which stays false. */
  lemma PausedJobIgnoresStartAndHome(s: State, confirmed: bool, t: HomeTarget)
    requires Inv(s) && s.panel.stopEnabled && !s.paused
    ensures var p := Pause(s, confirmed);
      p.panel.startEnabled && p.panel.controlsEnabled &&
      Step(p, ClickStart(confirmed)) == p && Step(p, ClickHome(t)) == p
  {
  }

  /** `finish()` leaves `paused` as it was: when a paused job receives
      `finished`, the next job starts out paused, so the first press of its
      pause button asks to resume and writes `continue` instead of `pause`. */
  lemma PauseSurvivesFinish(s: State, confirmed: bool)
    requires Inv(s) && s.finished && !s.paused && s.link.isOpen && s.link.pollerAlive
    ensures var t := Start(Poll(Pause(Start(s, true), true), Received("finished\r\n")), true);
      var r := Pause(t, confirmed);
      !t.finished && t.paused && t.panel.pauseEnabled &&
      r.written == t.written + (if confirmed then [ContinueJob] else []) &&
      (r.paused <==> !confirmed)
  {
    FinishedLinePoll(Pause(Start(s, true), true));
  }

  /** One progress line `R<rest>` on an open port: the status becomes
      "Running"; pass and cell become the first two space-separated fields
      of `rest` when it holds a space, and are left as they were otherwise. */
  lemma ProgressPoll(s: State, rest: string)
    requires s.link.isOpen && s.link.pollerAlive
    ensures var r := Poll(s, Received("R" + rest + "\r\n"));
      var fields := Split(rest, ' ');
      r.status == Running &&
      (if ' ' in rest then r.progressPass == fields[0] && r.progressCell == fields[1]
       else r.progressPass == s.progressPass && r.progressCell == s.progressCell)
  {
    StripFramed("R" + rest);
    assert ("R" + rest)[1..] == rest;
    SplitHasTwoFields(rest, ' ');
  }

  /** The progress report `R<pass> <cell>` shows exactly that pass and cell,
      whatever was shown before. */
  lemma ProgressLatestWins(s: State, pass: string, cell: string)
    requires s.link.isOpen && s.link.pollerAlive
    requires ' ' !in pass && ' ' !in cell
    ensures var r := Poll(s, Received("R" + pass + " " + cell + "\r\n"));
      r.progressPass == pass && r.progressCell == cell && r.status == Running
  {
    ProgressRoundTrip(pass, cell);
  }

  /** A `finished` line on an open port ends the job: the start button is
      back, stop and pause are disabled, and nothing is written or shown. */
  lemma FinishedLinePoll(s: State)
    requires s.link.isOpen && s.link.pollerAlive
    ensures var r := Poll(s, Received("finished\r\n"));
      r.finished && r.panel.startEnabled && !r.panel.stopEnabled && !r.panel.pauseEnabled &&
      r.written == s.written && r.alerts == s.alerts && r.link == s.link.(wasOpen := true)
  {
    StripFramed("finished");
  }

  /** An `ESTOP` line on an open port shows "Emergency Stop" and one more
      emergency-stop dialog, and leaves the link as it was. */
  lemma EStopLinePoll(s: State)
    requires s.link.isOpen && s.link.pollerAlive
    ensures var r := Poll(s, Received("ESTOP\r\n"));
      r.status == EStopped && r.alerts == s.alerts + [EmergencyStop] &&
      r.link == s.link.(wasOpen := true) && r.written == s.written
  {
    StripFramed("ESTOP");
  }

  /** Every `ESTOP` line shows the emergency-stop dialog again; repeated
      lines are not collapsed. */
  lemma EStopAlertsEveryTime(s: State)
    requires s.link.isOpen && s.link.pollerAlive
    ensures var r := PollAll(s, [Received("ESTOP\r\n"), Received("ESTOP\r\n")]);
      r.alerts == s.alerts + [EmergencyStop, EmergencyStop] && r.status == EStopped
  {
    var inputs := [Received("ESTOP\r\n"), Received("ESTOP\r\n")];
    assert inputs[..1] == [Received("ESTOP\r\n")];
    EStopLinePoll(s);
    EStopLinePoll(Poll(s, Received("ESTOP\r\n")));
  }

  /** A session from program start: connect to COM5, one idle poll, a
      confirmed press of the (enabled) start button, the report `R3 7` and
      then `finished`. Exactly `runSeries` is written, the progress shows
      pass 3 and cell 7, and the start button is back. */
  lemma WeldingSession()
    ensures var s2 := Poll(Connect(Initial(), "COM5", true), NoData);
      var r := Poll(Poll(Start(s2, true), Received("R3 7\r\n")), Received("finished\r\n"));
      s2.panel.startEnabled &&
      r.written == [RunSeries] && r.progressPass == "3" && r.progressCell == "7" &&
      r.finished && r.panel.startEnabled && !r.panel.stopEnabled && r.alerts == []
  {
    var s1 := Connect(Initial(), "COM5", true);
    var s2 := Poll(s1, NoData);
    assert s2.link.isOpen && s2.link.pollerAlive && s2.finished && s2.panel.startEnabled;
    var s3 := Start(s2, true);
    assert s3.written == [RunSeries] && s3.link == s2.link && s3.alerts == [];
    ProgressLatestWins(s3, "3", "7");
    assert "R" + "3" + " " + "7" + "\r\n" == "R3 7\r\n";
    var s4 := Poll(s3, Received("R3 7\r\n"));
    FinishedLinePoll(s4);
  }
}
