// The welder GUI's session state as one record, and one transition
// function per handler of the GUI and per iteration of its polling thread.
// These functions are the specification the class in welder_gui.dfy is
// proved against; the lemmas in properties.dfy reason about them.

module Session {
  import opened Outbound
  import opened Inbound

  /** The error dialogs the GUI can show; each dialog shown is logged. */
  datatype Alert =
    | NoStepSize
    | NoPortSelected
    | CouldNotOpen
    | ConnectionLost
    | EmergencyStop

  /** What one iteration of the polling thread finds on an open port:
      nothing waiting, one line from `readline`, or a serial error. */
  datatype PortRead = NoData | Received(raw: string) | ReadFailed

  /** The three homing buttons. */
  datatype HomeTarget = HomeY | HomeZ | HomeBoth

  /** What the status label shows. */
  datatype Status = Disconnected | Lost | Running | Paused | EStopped | Idle

  /** The label's text for each status. */
  function StatusText(st: Status): string
  {
    match st
    case Disconnected => "Disconnected"
    case Lost => "Lost Connection"
    case Running => "Running"
    case Paused => "Paused"
    case EStopped => "Emergency Stop"
    case Idle => "Idle"
  }

  /** The serial port and the polling thread: the port's open flag and
      name, the globals `wasOpen` and `safeDisconnect`, and whether the
      thread is still running. */
  datatype Link = Link(
    isOpen: bool,
    port: string,
    wasOpen: bool,
    safeDisconnect: bool,
    pollerAlive: bool)

  /** The enabled state of the widgets the handlers switch.
      `controlsEnabled` stands for the control frame with the jog and homing
      buttons, which `enableControl`/`disableControl` switch together with
      the start button; `progressShown` is the progress frame. */
  datatype Panel = Panel(
    controlsEnabled: bool,
    startEnabled: bool,
    pauseEnabled: bool,
    stopEnabled: bool,
    progressShown: bool)

  /** The whole session: the link, the globals `finished` and `paused`, the
      panel, the status and progress labels, every command written to the
      port (the characters on the wire are `Encode` of each, in order) and every
      error dialog shown. */
  datatype State = State(
    link: Link,
    finished: bool,
    paused: bool,
    panel: Panel,
    status: Status,
    progressPass: string,
    progressCell: string,
    written: seq<Command>,
    alerts: seq<Alert>)

  /** The state at program start: port closed, no job running, every
      control disabled, both progress labels "0". */
  function Initial(): (s: State)
    ensures !s.link.isOpen && !s.link.wasOpen && s.link.pollerAlive
    ensures s.finished && !s.paused
    ensures s.panel == Panel(false, false, false, false, false)
    ensures s.written == [] && s.alerts == []
    ensures Inv(s)
  {
    State(Link(false, "", false, false, true), true, false,
          Panel(false, false, false, false, false),
          Disconnected, "0", "0", [], [])
  }

  /** Facts every reachable state keeps: the pause and stop buttons are
      enabled together, and only while a job is unfinished. */
  predicate Inv(s: State)
  {
    s.panel.pauseEnabled == s.panel.stopEnabled && (s.panel.stopEnabled ==> !s.finished)
  }

  /** `ser.write`: pyserial raises instead of writing when the port is
      closed. Every handler writes last, so its earlier updates stay. */
  function Send(s: State, c: Command): State
  {
    if s.link.isOpen then s.(written := s.written + [c]) else s
  }

  function EnableControl(s: State): State
  {
    s.(panel := s.panel.(controlsEnabled := true, startEnabled := true))
  }

  function DisableControl(s: State): State
  {
    s.(panel := s.panel.(controlsEnabled := false, startEnabled := false))
  }

  /** The four jog handlers. Nothing happens unless the port is open and the
      jog buttons are enabled; an empty step entry shows an error; otherwise
      exactly one Move command for the axis is written, carrying the entry's
      text unchecked. */
  function Jog(s: State, a: Axis, negative: bool, text: string): (r: State)
    ensures Inv(s) ==> Inv(r)
    ensures r.written == s.written +
      (if s.link.isOpen && s.panel.controlsEnabled && text != [] then [Move(a, JogArg(negative, text))] else [])
    ensures r.alerts == s.alerts +
      (if s.link.isOpen && s.panel.controlsEnabled && text == [] then [NoStepSize] else [])
    ensures r.(written := s.written, alerts := s.alerts) == s
  {
    if !s.link.isOpen || !s.panel.controlsEnabled then s
    else if text == [] then s.(alerts := s.alerts + [NoStepSize])
    else s.(written := s.written + [Move(a, JogArg(negative, text))])
  }

  function HomeCommand(t: HomeTarget): Command
  {
    match t
    case HomeY => HomeAxis(Y)
    case HomeZ => HomeAxis(Z)
    case HomeBoth => HomeAllAxes
  }

  /** `homeY`, `homeZ`, `homeAll`: guarded by `finished` only, not by the
      port; the homing command reaches the wire iff no job is running and
      the port is open, and nothing else changes. */
  function Home(s: State, t: HomeTarget): (r: State)
    ensures Inv(s) ==> Inv(r)
    ensures r.written == s.written + (if s.finished && s.link.isOpen then [HomeCommand(t)] else [])
    ensures r.(written := s.written) == s
  {
    if !s.finished then s else Send(s, HomeCommand(t))
  }

  /** `start`: unless confirmed while no job is running it changes nothing;
      otherwise the job is marked unfinished, the stop and pause buttons
      replace the start button, the controls are disabled and `runSeries`
      is written. */
  function Start(s: State, confirmed: bool): (r: State)
    ensures Inv(s) ==> Inv(r)
    ensures !(confirmed && s.finished) ==> r == s
    ensures r.finished == (s.finished && !confirmed)
    ensures confirmed && s.finished ==> r.panel == Panel(false, false, true, true, true)
    ensures r.written == s.written + (if confirmed && s.finished && s.link.isOpen then [RunSeries] else [])
    ensures r.(finished := s.finished, panel := s.panel, written := s.written) == s
  {
    if !confirmed || !s.finished then s
    else
      var s1 := s.(finished := false,
                   panel := s.panel.(stopEnabled := true, pauseEnabled := true,
                                     startEnabled := false, progressShown := true));
      Send(DisableControl(s1), RunSeries)
  }

  /** `stop`: ends the job unconditionally, re-enables the controls and
      writes `stop`. */
  function Stop(s: State): (r: State)
    ensures Inv(s) ==> Inv(r)
    ensures r.finished && !r.paused
    ensures r.panel == Panel(true, true, false, false, false)
    ensures r.written == s.written + (if s.link.isOpen then [StopJob] else [])
    ensures r.(finished := s.finished, paused := s.paused, panel := s.panel, written := s.written) == s
  {
    var s1 := s.(finished := true, paused := false,
                 panel := s.panel.(stopEnabled := false, pauseEnabled := false,
                                   startEnabled := true, progressShown := false));
    Send(EnableControl(s1), StopJob)
  }

  /** `pause`: pausing writes `pause` and enables the controls; resuming
      asks first, and when confirmed writes `continue` and disables them. */
  function Pause(s: State, confirmed: bool): (r: State)
    ensures Inv(s) ==> Inv(r)
    ensures s.paused && !confirmed ==> r == s
    ensures s.paused && confirmed ==>
      !r.paused && !r.panel.controlsEnabled &&
      r.written == s.written + (if s.link.isOpen then [ContinueJob] else [])
    ensures !s.paused ==>
      r.paused && r.panel.controlsEnabled &&
      r.written == s.written + (if s.link.isOpen then [PauseJob] else [])
    ensures !(s.paused && !confirmed) ==>
      r.panel == s.panel.(controlsEnabled := r.paused, startEnabled := r.paused)
    ensures r.(paused := s.paused, panel := s.panel, written := s.written) == s
  {
    if s.paused then
      if !confirmed then s
      else Send(DisableControl(s.(paused := false)), ContinueJob)
    else Send(EnableControl(s.(paused := true)), PauseJob)
  }

  /** `lostConnection`: disables every button but the connection button,
      shows "Lost Connection" and the error dialog. It does not close the
      port or touch the job flags. */
  function LostConnection(s: State): (r: State)
    ensures Inv(s) ==> Inv(r)
    ensures r.panel == s.panel.(controlsEnabled := false, startEnabled := false,
                                pauseEnabled := false, stopEnabled := false)
    ensures r.status == Lost && StatusText(r.status) == "Lost Connection"
    ensures r.alerts == s.alerts + [ConnectionLost]
    ensures r.(panel := s.panel, status := s.status, alerts := s.alerts) == s
  {
    DisableControl(s).(panel := DisableControl(s).panel.(pauseEnabled := false, stopEnabled := false),
                       status := Lost, alerts := s.alerts + [ConnectionLost])
  }

  /** `finish`, on a `finished` line: the job is over and the start button
      is back; `paused` and the controls are left as they were. */
  function Finish(s: State): (r: State)
    ensures Inv(s) ==> Inv(r)
    ensures r.finished && r.paused == s.paused
    ensures r.panel == s.panel.(startEnabled := true, stopEnabled := false,
                                pauseEnabled := false, progressShown := false)
    ensures r.(finished := s.finished, panel := s.panel) == s
  {
    s.(finished := true,
       panel := s.panel.(stopEnabled := false, pauseEnabled := false,
                         startEnabled := true, progressShown := false))
  }

  /** `connect`, the connect/disconnect button. On an open port it is a
      user disconnect: `safeDisconnect` is set and the port closed. On a
      closed port `safeDisconnect` is cleared and the named port opened,
      unless the name is empty or opening fails (`opens` is the outcome of
      `ser.open()`); only a successful open enables the controls. */
  function Connect(s: State, portName: string, opens: bool): (r: State)
    ensures Inv(s) ==> Inv(r)
    ensures r.link.isOpen <==> !s.link.isOpen && portName != [] && opens
    ensures r.link.safeDisconnect <==> s.link.isOpen
    ensures r.link.port == if s.link.isOpen then s.link.port else portName
    ensures s.link.isOpen ==>
      r.panel == s.panel.(controlsEnabled := false, startEnabled := false) &&
      r.status == Disconnected && StatusText(r.status) == "Disconnected"
    ensures r.link.isOpen ==> r.panel == s.panel.(controlsEnabled := true, startEnabled := true)
    ensures !s.link.isOpen && !r.link.isOpen ==> r.panel == s.panel
    ensures r.alerts == s.alerts +
      (if s.link.isOpen then [] else if portName == [] then [NoPortSelected]
       else if !opens then [CouldNotOpen] else [])
    ensures !s.link.isOpen ==> r.status == s.status
    ensures r.link.wasOpen == s.link.wasOpen && r.link.pollerAlive == s.link.pollerAlive
    ensures r.(link := s.link, panel := s.panel, status := s.status, alerts := s.alerts) == s
  {
    if s.link.isOpen then
      DisableControl(s.(link := s.link.(safeDisconnect := true, isOpen := false), status := Disconnected))
    else
      var s1 := s.(link := s.link.(safeDisconnect := false, port := portName));
      if portName == [] then s1.(alerts := s1.alerts + [NoPortSelected])
      else if !opens then s1.(alerts := s1.alerts + [CouldNotOpen])
      else EnableControl(s1.(link := s1.link.(isOpen := true)))
  }

  /** What one received, stripped and classified line does. A progress line
      always shows "Running" but updates pass and cell only when it has at
      least two fields; an empty line ends the polling thread. */
  function Apply(s: State, e: Event): (r: State)
    ensures Inv(s) ==> Inv(r)
    ensures r.written == s.written
    ensures r.link == s.link.(pollerAlive := s.link.pollerAlive && e != EmptyLine)
    ensures e.ProgressLine? ==>
      r == s.(status := Running,
              progressPass := if |e.fields| >= 2 then e.fields[0] else s.progressPass,
              progressCell := if |e.fields| >= 2 then e.fields[1] else s.progressCell) &&
      StatusText(r.status) == "Running"
    ensures e == FinishedLine ==> r == Finish(s)
    ensures e == PausedLine ==> r == s.(status := Paused) && StatusText(r.status) == "Paused"
    ensures e == EStopLine ==>
      r == s.(status := EStopped, alerts := s.alerts + [EmergencyStop]) &&
      StatusText(r.status) == "Emergency Stop"
    ensures e == IdleLine ==> r == s.(status := Idle) && StatusText(r.status) == "Idle"
    ensures e == OtherLine ==> r == s
    ensures e == EmptyLine ==> r == s.(link := s.link.(pollerAlive := false))
  {
    match e
    case FinishedLine => Finish(s)
    case ProgressLine(fields) =>
      var s1 := s.(status := Running);
      if |fields| < 2 then s1
      else s1.(progressPass := fields[0], progressCell := fields[1])
    case PausedLine => s.(status := Paused)
    case EStopLine => s.(status := EStopped, alerts := s.alerts + [EmergencyStop])
    case IdleLine => s.(status := Idle)
    case OtherLine => s
    case EmptyLine => s.(link := s.link.(pollerAlive := false))
  }

  /** One iteration of the polling thread's loop (after its sleep). On a
      closed port it reports a loss once per open-to-closed edge unless the
      close was the user's; on an open port it notes the port as open and
      handles what was read. A serial error reports the loss and closes the
      port; an empty line raises IndexError, which ends the thread. */
  function Poll(s: State, read: PortRead): (r: State)
    ensures Inv(s) ==> Inv(r)
    ensures !s.link.pollerAlive ==> r == s
    ensures s.link.pollerAlive && !s.link.isOpen ==>
      !r.link.isOpen && !r.link.wasOpen && r.link.pollerAlive &&
      r.alerts == s.alerts + (if s.link.wasOpen && !s.link.safeDisconnect then [ConnectionLost] else [])
    ensures s.link.pollerAlive && !s.link.isOpen ==>
      r == (if s.link.wasOpen && !s.link.safeDisconnect then LostConnection(s) else s).(link := s.link.(wasOpen := false))
    ensures s.link.pollerAlive && s.link.isOpen ==> r.link.wasOpen && (r.link.isOpen <==> read != ReadFailed)
    ensures s.link.pollerAlive && s.link.isOpen && read == NoData ==>
      r == s.(link := s.link.(wasOpen := true))
    ensures s.link.pollerAlive && s.link.isOpen && read == ReadFailed ==>
      r == LostConnection(s).(link := s.link.(wasOpen := true, isOpen := false)) &&
      r.status == Lost && r.alerts == s.alerts + [ConnectionLost]
    ensures s.link.pollerAlive && s.link.isOpen && read == Received([]) ==>
      r == s.(link := s.link.(wasOpen := true, pollerAlive := false))
    ensures s.link.pollerAlive && s.link.isOpen && read.Received? && read.raw != [] ==>
      r == Apply(s.(link := s.link.(wasOpen := true)), Classify(StripTerminator(read.raw)))
    ensures r.written == s.written && r.link.safeDisconnect == s.link.safeDisconnect
    ensures r.finished == s.finished || read.Received?
  {
    if !s.link.pollerAlive then s
    else if !s.link.isOpen then
      if s.link.wasOpen then
        var s1 := if s.link.safeDisconnect then s else LostConnection(s);
        s1.(link := s1.link.(wasOpen := false))
      else s
    else
      var s1 := s.(link := s.link.(wasOpen := true));
      match read
      case NoData => s1
      case ReadFailed =>
        var s2 := LostConnection(s1);
        s2.(link := s2.link.(isOpen := false))
      case Received(raw) =>
        if raw == [] then s1.(link := s1.link.(pollerAlive := false))
        else Apply(s1, Classify(StripTerminator(raw)))
  }

  /** The polling thread running over successive inputs, oldest first. */
  function PollAll(s: State, inputs: seq<PortRead>): State
    decreases |inputs|
  {
    if inputs == [] then s
    else Poll(PollAll(s, inputs[..|inputs| - 1]), inputs[|inputs| - 1])
  }

  /** One event the GUI reacts to: a button press, a jog key, or one
      iteration of the polling thread. */
  datatype Action =
    | ClickConnect(portName: string, opens: bool)
    | ClickStart(confirmed: bool)
    | ClickStop
    | ClickPause(confirmed: bool)
    | ClickHome(target: HomeTarget)
    | JogKey(axis: Axis, negative: bool, text: string)
    | PollTick(read: PortRead)

  /** Tk runs a button's handler only while the button is enabled; the jog
      keys are bound to the window and always reach their handlers, which is
      why those handlers check the button state themselves. */
  function Step(s: State, act: Action): State
  {
    match act
    case ClickConnect(p, o) => Connect(s, p, o)
    case ClickStart(c) => if s.panel.startEnabled then Start(s, c) else s
    case ClickStop => if s.panel.stopEnabled then Stop(s) else s
    case ClickPause(c) => if s.panel.pauseEnabled then Pause(s, c) else s
    case ClickHome(t) => if s.panel.controlsEnabled then Home(s, t) else s
    case JogKey(a, neg, text) => Jog(s, a, neg, text)
    case PollTick(read) => Poll(s, read)
  }

  function Run(s: State, acts: seq<Action>): State
    decreases |acts|
  {
    if acts == [] then s else Run(Step(s, acts[0]), acts[1..])
  }
}
