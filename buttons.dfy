/** The main screen's button-enable rules, as reactions to the manager's events.
    `onError` resets the buttons from the manager's flags; the connection and
    scanning callbacks set them from the event's value. */
module Buttons {
  import opened Rfid

  /** Which of the four buttons are enabled. */
  datatype Enables = Enables(connect: bool, disconnect: bool, startScan: bool, stopScan: bool)

  /** `onError`: every button is set from the manager's flags at delivery time. */
  function AfterError(connected: bool, scanning: bool): Enables {
    Enables(!connected, connected, connected && !scanning, scanning)
  }

  /** `onConnectionStatusChanged`: Stop-Scan is left alone on a connection. */
  function AfterConnectionChanged(b: Enables, connected: bool): Enables {
    if connected then b.(connect := false, disconnect := true, startScan := true)
    else Enables(true, false, false, false)
  }

  /** `onScanningStatusChanged`: only the two scan buttons change. */
  function AfterScanningChanged(b: Enables, scanning: bool): Enables {
    b.(startScan := !scanning, stopScan := scanning)
  }

  /** The screen's reaction to one delivered event; `s` holds the manager's flags
      when the event arrives. A found tag changes no button. */
  function React(b: Enables, e: Event, s: State): Enables {
    match e
    case ConnectionChanged(connected) => AfterConnectionChanged(b, connected)
    case ScanningChanged(scanning) => AfterScanningChanged(b, scanning)
    case TagFound(_, _) => b
    case Error(_) => AfterError(s.connected, s.scanning)
  }

  function ReactAll(b: Enables, events: seq<Event>, s: State): Enables
    decreases |events|
  {
    if events == [] then b else ReactAll(React(b, events[0], s), events[1..], s)
  }

  /** The buttons after a run of operations, each operation's events delivered
      once it has completed. */
  function ButtonsAfterRun(b: Enables, s: State, cmds: seq<Command>): Enables
    decreases |cmds|
  {
    if cmds == [] then b
    else
      var step := Apply(s, cmds[0]);
      ButtonsAfterRun(ReactAll(b, step.events, step.state), step.state, cmds[1..])
  }

  /** The buttons are as `onError` would set them for the manager's flags. */
  predicate InStep(b: Enables, s: State) {
    b == AfterError(s.connected, s.scanning)
  }

  lemma AfterErrorRules(connected: bool, scanning: bool)
    ensures AfterError(connected, scanning).startScan <==> connected && !scanning
    ensures AfterError(connected, scanning).stopScan <==> scanning
    ensures AfterError(connected, scanning).connect <==> !connected
    ensures AfterError(connected, scanning).disconnect <==> connected
  {
  }

  /** With the manager's invariant, the reset never enables both scan buttons,
      enables exactly one of Connect and Disconnect, and enables a scan button
      only while Disconnect is enabled. */
  lemma AfterErrorConsistent(s: State)
    requires ScanImpliesConnected(s)
    ensures var b := AfterError(s.connected, s.scanning);
      !(b.startScan && b.stopScan) && b.connect != b.disconnect &&
      (b.startScan || b.stopScan ==> b.disconnect)
  {
  }

  lemma AfterConnectionChangedRules(b: Enables, connected: bool)
    ensures !connected ==> AfterConnectionChanged(b, false) == Enables(true, false, false, false)
    ensures connected ==>
      var r := AfterConnectionChanged(b, true);
      !r.connect && r.disconnect && r.startScan && r.stopScan == b.stopScan
  {
  }

  lemma AfterScanningChangedRules(b: Enables, scanning: bool)
    ensures var r := AfterScanningChanged(b, scanning);
      r.startScan == !scanning && r.stopScan == scanning &&
      r.connect == b.connect && r.disconnect == b.disconnect
  {
  }

  /** One operation, started with the buttons in step with the manager and
      `connect` only from the disconnected state, leaves them in step again
      once its events have been delivered. */
  lemma ApplyKeepsButtonsInStep(b: Enables, s: State, c: Command)
    requires InStep(b, s) && ScanImpliesConnected(s)
    requires c.ConnectCmd? ==> !s.connected
    ensures InStep(ReactAll(b, Apply(s, c).events, Apply(s, c).state), Apply(s, c).state)
  {
    var step := Apply(s, c);
    var e := step.events;
    if |e| == 1 {
      assert ReactAll(b, e, step.state) == React(b, e[0], step.state);
    } else if |e| == 2 {
      var b1 := React(b, e[0], step.state);
      assert e[1..][0] == e[1] && e[1..][1..] == [];
      assert ReactAll(b1, e[1..], step.state) == React(b1, e[1], step.state);
      assert ReactAll(b, e, step.state) == React(b1, e[1], step.state);
    }
  }

  lemma {:induction false} RunKeepsButtonsInStep(b: Enables, s: State, cmds: seq<Command>)
    requires InStep(b, s) && ScanImpliesConnected(s)
    requires ConnectsOnlyWhenDisconnected(s, cmds)
    ensures InStep(ButtonsAfterRun(b, s, cmds), Run(s, cmds).state)
    decreases |cmds|
  {
    if cmds != [] {
      var step := Apply(s, cmds[0]);
      ApplyKeepsButtonsInStep(b, s, cmds[0]);
      ApplyKeepsInvariant(s, cmds[0]);
      RunKeepsButtonsInStep(ReactAll(b, step.events, step.state), step.state, cmds[1..]);
    }
  }
}
