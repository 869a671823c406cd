// The GUI's serial session controller as it runs: the module globals and
// the widget state it switches are fields of one object, each handler is a
// method that updates them in place, and the polling thread is a loop over
// what the port delivers. Each method is proved to take the object from a
// state to the state the matching function of module Session gives.

module WelderGui {
  import opened Outbound
  import opened Inbound
  import Session

  class Welder {
    // The serial port (`ser.is_open`, `ser.port`), the loss-detection
    // globals `wasOpen` and `safeDisconnect`, and whether the polling
    // thread is still running.
    var link: Session.Link
    // The job globals.
    var finished: bool
    var paused: bool
    // The states of the widgets the handlers switch: the control frame with
    // the jog and homing buttons, the start, pause and stop buttons and the
    // progress frame.
    var panel: Session.Panel
    // Labels.
    var status: Session.Status
    var progressPass: string
    var progressCell: string
    // Everything written to the port, and every error dialog shown.
    var written: seq<Command>
    var alerts: seq<Session.Alert>

    /** The fields, read as one session state. */
    function Snapshot(): Session.State
      reads this
    {
      Session.State(link, finished, paused, panel, status, progressPass, progressCell, written, alerts)
    }

    ghost predicate Valid()
      reads this
    {
      Session.Inv(Snapshot())
    }

    /** Program start: the port is created closed, `finished` is true, and
        the constructor disables every control. */
    constructor ()
      ensures Snapshot() == Session.Initial()
      ensures Valid()
    {
      link := Session.Link(false, "", false, false, true);
      finished, paused := true, false;
      panel := Session.Panel(false, false, false, false, false);
      status, progressPass, progressCell := Session.Disconnected, "0", "0";
      written, alerts := [], [];
    }

    /** `ser.write`: nothing reaches the wire while the port is closed. */
    method Write(c: Command)
      modifies this
      ensures Snapshot() == Session.Send(old(Snapshot()), c)
    {
      if link.isOpen {
        written := written + [c];
      }
    }

    method EnableControl()
      modifies this
      ensures Snapshot() == Session.EnableControl(old(Snapshot()))
    {
      panel := panel.(controlsEnabled := true, startEnabled := true);
    }

    method DisableControl()
      modifies this
      ensures Snapshot() == Session.DisableControl(old(Snapshot()))
    {
      panel := panel.(controlsEnabled := false, startEnabled := false);
    }

    /** The body shared by the four jog handlers. */
    method JogAxis(a: Axis, negative: bool, stepText: string)
      requires Valid()
      modifies this
      ensures Snapshot() == Session.Jog(old(Snapshot()), a, negative, stepText)
      ensures Valid()
    {
      if !link.isOpen || !panel.controlsEnabled {
        return;
      }
      if stepText == [] {
        alerts := alerts + [Session.NoStepSize];
        return;
      }
      written := written + [Move(a, JogArg(negative, stepText))];
    }

    method YLeft(stepText: string)
      requires Valid()
      modifies this
      ensures Snapshot() == Session.Jog(old(Snapshot()), Y, false, stepText)
      ensures Valid()
    {
      JogAxis(Y, false, stepText);
    }

    method YRight(stepText: string)
      requires Valid()
      modifies this
      ensures Snapshot() == Session.Jog(old(Snapshot()), Y, true, stepText)
      ensures Valid()
    {
      JogAxis(Y, true, stepText);
    }

    method ZUp(stepText: string)
      requires Valid()
      modifies this
      ensures Snapshot() == Session.Jog(old(Snapshot()), Z, false, stepText)
      ensures Valid()
    {
      JogAxis(Z, false, stepText);
    }

    method ZDown(stepText: string)
      requires Valid()
      modifies this
      ensures Snapshot() == Session.Jog(old(Snapshot()), Z, true, stepText)
      ensures Valid()
    {
      JogAxis(Z, true, stepText);
    }

    /** The connect/disconnect button; `opens` is whether `ser.open()`
        succeeds. */
    method Connect(portName: string, opens: bool)
      requires Valid()
      modifies this
      ensures Snapshot() == Session.Connect(old(Snapshot()), portName, opens)
      ensures Valid()
    {
      if link.isOpen {
        link := link.(safeDisconnect := true, isOpen := false);
        status := Session.Disconnected;
        DisableControl();
        return;
      }
      link := link.(safeDisconnect := false, port := portName);
      if link.port == [] {
        alerts := alerts + [Session.NoPortSelected];
        return;
      }
      if !opens {
        alerts := alerts + [Session.CouldNotOpen];
        return;
      }
      link := link.(isOpen := true);
      EnableControl();
    }

    method HomeY()
      requires Valid()
      modifies this
      ensures Snapshot() == Session.Home(old(Snapshot()), Session.HomeY)
      ensures Valid()
    {
      if !finished {
        return;
      }
      Write(HomeAxis(Y));
    }

    method HomeZ()
      requires Valid()
      modifies this
      ensures Snapshot() == Session.Home(old(Snapshot()), Session.HomeZ)
      ensures Valid()
    {
      if !finished {
        return;
      }
      Write(HomeAxis(Z));
    }

    method HomeAll()
      requires Valid()
      modifies this
      ensures Snapshot() == Session.Home(old(Snapshot()), Session.HomeBoth)
      ensures Valid()
    {
      if !finished {
        return;
      }
      Write(HomeAllAxes);
    }

    /** The start button; `confirmed` is the answer to the confirmation
        dialog. */
    method Start(confirmed: bool)
      requires Valid()
      modifies this
      ensures Snapshot() == Session.Start(old(Snapshot()), confirmed)
      ensures Valid()
    {
      if !confirmed {
        return;
      }
      if !finished {
        return;
      }
      finished := false;
      panel := panel.(stopEnabled := true, pauseEnabled := true, startEnabled := false, progressShown := true);
      DisableControl();
      Write(RunSeries);
    }

    method Stop()
      requires Valid()
      modifies this
      ensures Snapshot() == Session.Stop(old(Snapshot()))
      ensures Valid()
    {
      finished, paused := true, false;
      panel := panel.(stopEnabled := false, pauseEnabled := false, startEnabled := true, progressShown := false);
      EnableControl();
      Write(StopJob);
    }

    /** The pause/resume button; `confirmed` answers the resume dialog and
        is not asked for when pausing. */
    method Pause(confirmed: bool)
      requires Valid()
      modifies this
      ensures Snapshot() == Session.Pause(old(Snapshot()), confirmed)
      ensures Valid()
    {
      if paused {
        if !confirmed {
          return;
        }
        paused := false;
        DisableControl();
        Write(ContinueJob);
        return;
      }
      paused := true;
      EnableControl();
      Write(PauseJob);
    }

    method LostConnection()
      requires Valid()
      modifies this
      ensures Snapshot() == Session.LostConnection(old(Snapshot()))
      ensures Valid()
    {
      DisableControl();
      panel := panel.(startEnabled := false, pauseEnabled := false, stopEnabled := false);
      status := Session.Lost;
      alerts := alerts + [Session.ConnectionLost];
    }

    method Finish()
      requires Valid()
      modifies this
      ensures Snapshot() == Session.Finish(old(Snapshot()))
      ensures Valid()
    {
      finished := true;
      panel := panel.(stopEnabled := false, pauseEnabled := false, startEnabled := true, progressShown := false);
    }

    /** What the polling thread does with one stripped, classified line. */
    method Handle(e: Event)
      requires Valid()
      modifies this
      ensures Snapshot() == Session.Apply(old(Snapshot()), e)
      ensures Valid()
    {
      match e {
        case FinishedLine =>
          Finish();
        case ProgressLine(fields) =>
          status := Session.Running;
          if |fields| >= 2 {
            progressPass, progressCell := fields[0], fields[1];
          }
        case PausedLine =>
          status := Session.Paused;
        case EStopLine =>
          status := Session.EStopped;
          alerts := alerts + [Session.EmergencyStop];
        case IdleLine =>
          status := Session.Idle;
        case OtherLine =>
        case EmptyLine =>
          link := link.(pollerAlive := false);
      }
    }

    /** One iteration of the polling thread's loop body. */
    method PollStep(read: Session.PortRead)
      requires Valid()
      modifies this
      ensures Snapshot() == Session.Poll(old(Snapshot()), read)
      ensures Valid()
    {
      if !link.pollerAlive {
        return;
      }
      if !link.isOpen {
        if link.wasOpen {
          if !link.safeDisconnect {
            LostConnection();
          }
          link := link.(wasOpen := false);
        }
        return;
      }
      link := link.(wasOpen := true);
      match read {
        case NoData =>
        case ReadFailed =>
          LostConnection();
          link := link.(isOpen := false);
        case Received(raw) =>
          if raw == [] {
            link := link.(pollerAlive := false);
            return;
          }
          Handle(Classify(StripTerminator(raw)));
      }
    }

    /** The polling thread: its loop runs one iteration per element of
        `inputs` and stops when they run out. */
    method RunPoller(inputs: seq<Session.PortRead>)
      requires Valid()
      modifies this
      ensures Snapshot() == Session.PollAll(old(Snapshot()), inputs)
      ensures Valid()
    {
      var i := 0;
      while i < |inputs|
        invariant 0 <= i <= |inputs|
        invariant Valid()
        invariant Snapshot() == Session.PollAll(old(Snapshot()), inputs[..i])
      {
        PollStep(inputs[i]);
        assert inputs[..i + 1][..i] == inputs[..i];
        i := i + 1;
      }
      assert inputs[..|inputs|] == inputs;
    }
  }
}
