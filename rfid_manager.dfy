/** The connection/scan state machine of `RFIDManager`.
    Every public operation is one atomic step: it updates the flags and posts
    its events, in order, to the main handler. The step functions below say
    what each operation does; the class `Manager` performs the same steps in
    place and is proved to agree with them. */
module Rfid {
  import opened TagIds

  /** What `mMainHandler.post` carries to the listener. */
  datatype Event =
    | ConnectionChanged(connected: bool)
    | ScanningChanged(scanning: bool)
    | TagFound(tagId: string, rssi: int)
    | Error(message: string)

  /** Listeners are opaque; an identity is enough to tell which one got an event. */
  type ListenerId = nat

  datatype Delivery = Delivery(listener: ListenerId, event: Event)

  /** "Device not connected", reported by `startScanning`. */
  const NotConnectedMessage: string := "設備未連接"

  /** "Connection failed: " followed by the message of the exception `connect`
      throws itself when the driver reports failure ("Connection failed"). */
  const ConnectFailedMessage: string := "連接失敗: 連接失敗"

  /** The fields that decide the manager's behaviour: the two flags and the
      counter of the scan loop that is running. */
  datatype State = State(connected: bool, scanning: bool, tagCount: Counter)

  /** The state after an operation and the events it posted, in posting order. */
  datatype Step = Step(state: State, events: seq<Event>)

  const Initial: State := State(false, false, 0)

  /** Invariant: the manager only scans while connected. */
  predicate ScanImpliesConnected(s: State) {
    s.scanning ==> s.connected
  }

  function ConnectStep(s: State, success: bool): Step {
    if success then
      Step(s.(connected := true), [ConnectionChanged(true)])
    else
      Step(s.(connected := false), [Error(ConnectFailedMessage), ConnectionChanged(false)])
  }

  function StopScanningStep(s: State): Step {
    if !s.scanning then Step(s, [])
    else Step(s.(scanning := false), [ScanningChanged(false)])
  }

  function DisconnectStep(s: State): Step {
    var stop := StopScanningStep(s);
    Step(stop.state.(connected := false), stop.events + [ConnectionChanged(false)])
  }

  /** Starting a scan also starts a fresh scan loop, whose counter begins at 0. */
  function StartScanningStep(s: State): Step {
    if !s.connected then Step(s, [Error(NotConnectedMessage)])
    else if s.scanning then Step(s, [])
    else Step(s.(scanning := true, tagCount := 0), [ScanningChanged(true)])
  }

  function CleanupStep(s: State): Step {
    if s.connected then DisconnectStep(s) else Step(s, [])
  }

  /** One pass of the scan loop: if still scanning, count one more tag and report it. */
  function ScanTick(s: State, offset: RssiOffset): Step {
    if !s.scanning then Step(s, [])
    else
      var c := NextCounter(s.tagCount);
      Step(s.(tagCount := c), [TagFound(TagId(c), Rssi(offset))])
  }

  /** Passes of the scan loop, one per random offset drawn. */
  function ScanTicks(s: State, offsets: seq<RssiOffset>): Step
    decreases |offsets|
  {
    if offsets == [] then Step(s, [])
    else
      var before := ScanTicks(s, offsets[..|offsets| - 1]);
      var last := ScanTick(before.state, offsets[|offsets| - 1]);
      Step(last.state, before.events + last.events)
  }

  lemma ScanTicksExtend(s: State, offsets: seq<RssiOffset>, i: nat)
    requires i < |offsets|
    ensures var before := ScanTicks(s, offsets[..i]);
      var pass := ScanTick(before.state, offsets[i]);
      ScanTicks(s, offsets[..i + 1]) == Step(pass.state, before.events + pass.events)
  {
    assert offsets[..i + 1][..i] == offsets[..i];
  }

  datatype Command =
    | ConnectCmd(success: bool)
    | DisconnectCmd
    | StartScanningCmd
    | StopScanningCmd
    | CleanupCmd
    | ScanTickCmd(offset: RssiOffset)

  function Apply(s: State, c: Command): Step {
    match c
    case ConnectCmd(success) => ConnectStep(s, success)
    case DisconnectCmd => DisconnectStep(s)
    case StartScanningCmd => StartScanningStep(s)
    case StopScanningCmd => StopScanningStep(s)
    case CleanupCmd => CleanupStep(s)
    case ScanTickCmd(offset) => ScanTick(s, offset)
  }

  /** A sequence of operations, each atomic, with all their events in order. */
  function Run(s: State, cmds: seq<Command>): Step
    decreases |cmds|
  {
    if cmds == [] then Step(s, [])
    else
      var first := Apply(s, cmds[0]);
      var rest := Run(first.state, cmds[1..]);
      Step(rest.state, first.events + rest.events)
  }

  /** `connect` is only issued while disconnected (the screen disables its
      button otherwise; the manager itself does not check). */
  predicate ConnectsOnlyWhenDisconnected(s: State, cmds: seq<Command>)
    decreases |cmds|
  {
    cmds == [] ||
    ((cmds[0].ConnectCmd? ==> !s.connected) &&
     ConnectsOnlyWhenDisconnected(Apply(s, cmds[0]).state, cmds[1..]))
  }

  // ---------------------------------------------------------------------
  // Properties of the single operations

  lemma StartScanningRules(s: State)
    ensures !s.connected ==> StartScanningStep(s) == Step(s, [Error(NotConnectedMessage)])
    ensures s.connected && s.scanning ==> StartScanningStep(s) == Step(s, [])
    ensures s.connected && !s.scanning ==>
      StartScanningStep(s).state == State(true, true, 0) &&
      StartScanningStep(s).events == [ScanningChanged(true)]
  {
  }

  lemma StopScanningRules(s: State)
    ensures !s.scanning ==> StopScanningStep(s) == Step(s, [])
    ensures s.scanning ==>
      StopScanningStep(s).state == s.(scanning := false) &&
      StopScanningStep(s).state.connected == s.connected &&
      StopScanningStep(s).events == [ScanningChanged(false)]
  {
  }

  lemma ConnectRules(s: State, success: bool)
    ensures ConnectStep(s, success).state == s.(connected := success)
    ensures success ==> ConnectStep(s, success).events == [ConnectionChanged(true)]
    ensures !success ==> ConnectStep(s, success).events == [Error(ConnectFailedMessage), ConnectionChanged(false)]
  {
  }

  /** A failed `connect` while scanning leaves the manager scanning but not
      connected: the invariant needs `connect` to start from the disconnected state. */
  lemma FailedConnectWhileScanning(c: Counter)
    ensures !ScanImpliesConnected(ConnectStep(State(true, true, c), false).state)
  {
  }

  lemma DisconnectRules(s: State)
    ensures DisconnectStep(s).state == s.(connected := false, scanning := false)
    ensures s.scanning ==> DisconnectStep(s).events == [ScanningChanged(false), ConnectionChanged(false)]
    ensures !s.scanning ==> DisconnectStep(s).events == [ConnectionChanged(false)]
  {
  }

  /** `cleanup` disconnects only when connected, so a second `cleanup` does nothing. */
  lemma CleanupIdempotent(s: State)
    ensures !CleanupStep(s).state.connected
    ensures ScanImpliesConnected(s) ==> !CleanupStep(s).state.scanning
    ensures CleanupStep(CleanupStep(s).state) == Step(CleanupStep(s).state, [])
  {
  }

  lemma ScanTickRules(s: State, offset: RssiOffset)
    ensures !s.scanning ==> ScanTick(s, offset) == Step(s, [])
    ensures s.scanning ==>
      var t := ScanTick(s, offset);
      t.state == s.(tagCount := NextCounter(s.tagCount)) &&
      |t.events| == 1 && t.events[0].TagFound? &&
      t.events[0].tagId == TagId(t.state.tagCount) &&
      -79 <= t.events[0].rssi <= -50
  {
  }

  /** While scanning, the k-th pass of a scan loop started at counter c reports
      the ID of counter c + k, and the counter ends |offsets| higher. */
  lemma {:induction false} ScanTicksEmitCounters(s: State, offsets: seq<RssiOffset>)
    requires s.scanning && s.tagCount + |offsets| < Int32Span
    ensures var r := ScanTicks(s, offsets);
      r.state == s.(tagCount := s.tagCount + |offsets|) &&
      |r.events| == |offsets| &&
      forall k :: 0 <= k < |offsets| ==>
        r.events[k] == TagFound(TagId(s.tagCount + k + 1), Rssi(offsets[k]))
    decreases |offsets|
  {
    if offsets != [] {
      var init := offsets[..|offsets| - 1];
      ScanTicksEmitCounters(s, init);
      assert forall k :: 0 <= k < |init| ==> init[k] == offsets[k];
    }
  }

  /** The tags reported by one scan loop (before its counter wraps) all have distinct IDs. */
  lemma ScanTicksDistinctIds(s: State, offsets: seq<RssiOffset>)
    requires s.scanning && s.tagCount + |offsets| < Int32Span
    ensures var e := ScanTicks(s, offsets).events;
      |e| == |offsets| &&
      forall i, j :: 0 <= i < j < |e| ==> e[i].TagFound? && e[j].TagFound? && e[i].tagId != e[j].tagId
  {
    ScanTicksEmitCounters(s, offsets);
    var e := ScanTicks(s, offsets).events;
    forall i, j | 0 <= i < j < |e|
      ensures e[i].TagFound? && e[j].TagFound? && e[i].tagId != e[j].tagId
    {
      TagIdInjective(s.tagCount + i + 1, s.tagCount + j + 1);
    }
  }

  // ---------------------------------------------------------------------
  // Properties of whole runs

  /** Every operation keeps the invariant, provided `connect` starts disconnected. */
  lemma ApplyKeepsInvariant(s: State, c: Command)
    requires ScanImpliesConnected(s)
    requires c.ConnectCmd? ==> !s.connected
    ensures ScanImpliesConnected(Apply(s, c).state)
  {
  }

  lemma {:induction false} RunKeepsInvariant(s: State, cmds: seq<Command>)
    requires ScanImpliesConnected(s)
    requires ConnectsOnlyWhenDisconnected(s, cmds)
    ensures ScanImpliesConnected(Run(s, cmds).state)
    decreases |cmds|
  {
    if cmds != [] {
      ApplyKeepsInvariant(s, cmds[0]);
      RunKeepsInvariant(Apply(s, cmds[0]).state, cmds[1..]);
    }
  }

  /** What a listener believes about scanning after the given events, starting from `scanning`. */
  function ScanView(scanning: bool, events: seq<Event>): bool
    decreases |events|
  {
    if events == [] then scanning
    else ScanView(if events[0].ScanningChanged? then events[0].scanning else scanning, events[1..])
  }

  /** What a listener believes about the connection after the given events. */
  function ConnectionView(connected: bool, events: seq<Event>): bool
    decreases |events|
  {
    if events == [] then connected
    else ConnectionView(if events[0].ConnectionChanged? then events[0].connected else connected, events[1..])
  }

  /** No tag is reported while the listener's view of scanning is off: a
      `TagFound` never follows a `ScanningChanged(false)` without a
      `ScanningChanged(true)` in between. */
  predicate TagsOnlyWhileScanning(scanning: bool, events: seq<Event>)
    decreases |events|
  {
    events == [] ||
    ((events[0].TagFound? ==> scanning) &&
     TagsOnlyWhileScanning(if events[0].ScanningChanged? then events[0].scanning else scanning, events[1..]))
  }

  lemma {:induction false} ViewsAppend(sc: bool, cn: bool, a: seq<Event>, b: seq<Event>)
    ensures ScanView(sc, a + b) == ScanView(ScanView(sc, a), b)
    ensures ConnectionView(cn, a + b) == ConnectionView(ConnectionView(cn, a), b)
    ensures TagsOnlyWhileScanning(sc, a + b) <==>
      TagsOnlyWhileScanning(sc, a) && TagsOnlyWhileScanning(ScanView(sc, a), b)
    decreases |a|
  {
    if a != [] {
      assert (a + b)[0] == a[0] && (a + b)[1..] == a[1..] + b;
      ViewsAppend(if a[0].ScanningChanged? then a[0].scanning else sc,
                  if a[0].ConnectionChanged? then a[0].connected else cn, a[1..], b);
    } else {
      assert a + b == b;
    }
  }

  /** Each operation's events bring the listener's view of both flags up to date,
      and report no tag while the view is not scanning. */
  lemma ApplyEventsTrackFlags(s: State, c: Command)
    ensures ScanView(s.scanning, Apply(s, c).events) == Apply(s, c).state.scanning
    ensures ConnectionView(s.connected, Apply(s, c).events) == Apply(s, c).state.connected
    ensures TagsOnlyWhileScanning(s.scanning, Apply(s, c).events)
  {
    var e := Apply(s, c).events;
    if c.DisconnectCmd? || (c.CleanupCmd? && s.connected) {
      ViewsAppend(s.scanning, s.connected, StopScanningStep(s).events, [ConnectionChanged(false)]);
    }
  }

  /** Over any run the events keep a listener's view of the flags exact, and no
      tag is reported after `ScanningChanged(false)` until scanning restarts. */
  lemma {:induction false} RunEventsTrackFlags(s: State, cmds: seq<Command>)
    ensures ScanView(s.scanning, Run(s, cmds).events) == Run(s, cmds).state.scanning
    ensures ConnectionView(s.connected, Run(s, cmds).events) == Run(s, cmds).state.connected
    ensures TagsOnlyWhileScanning(s.scanning, Run(s, cmds).events)
    decreases |cmds|
  {
    if cmds != [] {
      var first := Apply(s, cmds[0]);
      ApplyEventsTrackFlags(s, cmds[0]);
      RunEventsTrackFlags(first.state, cmds[1..]);
      ViewsAppend(s.scanning, s.connected, first.events, Run(first.state, cmds[1..]).events);
    }
  }

  // ---------------------------------------------------------------------
  // The manager object

  /** The events a listener receives: all of them if one is registered, none otherwise. */
  function Deliver(listener: Option<ListenerId>, events: seq<Event>): (r: seq<Delivery>)
    ensures listener.None? ==> r == []
    ensures listener.Some? ==>
      |r| == |events| && forall i :: 0 <= i < |events| ==> r[i] == Delivery(listener.value, events[i])
    decreases |events|
  {
    if listener.None? || events == [] then []
    else [Delivery(listener.value, events[0])] + Deliver(listener, events[1..])
  }

  lemma DeliverAppend(listener: Option<ListenerId>, a: seq<Event>, b: seq<Event>)
    ensures Deliver(listener, a + b) == Deliver(listener, a) + Deliver(listener, b)
  {
  }

  /** The loop invariant of `Manager.ScanLoop`, carried over one more pass. */
  lemma ScanLoopPass(s: State, offsets: seq<RssiOffset>, i: nat, listener: Option<ListenerId>,
                     posted0: seq<Event>, delivered0: seq<Delivery>)
    requires i < |offsets|
    ensures var before := ScanTicks(s, offsets[..i]);
      var pass := ScanTick(before.state, offsets[i]);
      var next := ScanTicks(s, offsets[..i + 1]);
      next.state == pass.state &&
      posted0 + before.events + pass.events == posted0 + next.events &&
      delivered0 + Deliver(listener, before.events) + Deliver(listener, pass.events) ==
        delivered0 + Deliver(listener, next.events)
  {
    var before := ScanTicks(s, offsets[..i]);
    var pass := ScanTick(before.state, offsets[i]);
    ScanTicksExtend(s, offsets, i);
    DeliverAppend(listener, before.events, pass.events);
    AppendAssoc(posted0, before.events, pass.events);
    AppendAssoc(delivered0, Deliver(listener, before.events), Deliver(listener, pass.events));
  }

  lemma AppendAssoc<T>(p: seq<T>, a: seq<T>, b: seq<T>)
    ensures p + a + b == p + (a + b)
  {
  }

  class Manager {
    var connected: bool
    var scanning: bool
    /** The counter of the running scan loop (a local of `simulateScanning`). */
    var tagCount: Counter
    var listener: Option<ListenerId>
    /** Everything posted to the main handler, in order. */
    var posted: seq<Event>
    /** Everything a listener actually received, in order. */
    var delivered: seq<Delivery>

    function Snapshot(): State
      reads this
    {
      State(connected, scanning, tagCount)
    }

    constructor ()
      ensures Snapshot() == Initial && listener == None
      ensures posted == [] && delivered == []
    {
      connected := false;
      scanning := false;
      tagCount := 0;
      listener := None;
      posted := [];
      delivered := [];
    }

    /** Replaces the single registered listener (possibly by none). */
    method SetConnectionListener(l: Option<ListenerId>)
      modifies this
      ensures listener == l
      ensures Snapshot() == old(Snapshot()) && posted == old(posted) && delivered == old(delivered)
    {
      listener := l;
    }

    method Post(e: Event)
      modifies this
      ensures posted == old(posted) + [e]
      ensures delivered == old(delivered) + Deliver(listener, [e])
      ensures Snapshot() == old(Snapshot()) && listener == old(listener)
    {
      posted := posted + [e];
      if listener.Some? {
        delivered := delivered + [Delivery(listener.value, e)];
      }
    }

    method NotifyError(message: string)
      modifies this
      ensures posted == old(posted) + [Error(message)]
      ensures delivered == old(delivered) + Deliver(listener, [Error(message)])
      ensures Snapshot() == old(Snapshot()) && listener == old(listener)
    {
      Post(Error(message));
    }

    /** `connect`, with the driver's answer as `success`. */
    method Connect(success: bool)
      modifies this
      ensures Snapshot() == ConnectStep(old(Snapshot()), success).state
      ensures posted == old(posted) + ConnectStep(old(Snapshot()), success).events
      ensures delivered == old(delivered) + Deliver(listener, ConnectStep(old(Snapshot()), success).events)
      ensures listener == old(listener)
    {
      if success {
        connected := true;
        Post(ConnectionChanged(true));
      } else {
        connected := false;
        NotifyError(ConnectFailedMessage);
        Post(ConnectionChanged(false));
        DeliverAppend(listener, [Error(ConnectFailedMessage)], [ConnectionChanged(false)]);
      }
    }

    method StopScanning()
      modifies this
      ensures Snapshot() == StopScanningStep(old(Snapshot())).state
      ensures posted == old(posted) + StopScanningStep(old(Snapshot())).events
      ensures delivered == old(delivered) + Deliver(listener, StopScanningStep(old(Snapshot())).events)
      ensures listener == old(listener)
    {
      if !scanning {
        return;
      }
      scanning := false;
      Post(ScanningChanged(false));
    }

    method Disconnect()
      modifies this
      ensures Snapshot() == DisconnectStep(old(Snapshot())).state
      ensures posted == old(posted) + DisconnectStep(old(Snapshot())).events
      ensures delivered == old(delivered) + Deliver(listener, DisconnectStep(old(Snapshot())).events)
      ensures listener == old(listener)
    {
      if scanning {
        StopScanning();
      }
      connected := false;
      Post(ConnectionChanged(false));
      DeliverAppend(listener, StopScanningStep(old(Snapshot())).events, [ConnectionChanged(false)]);
    }

    /** `startScanning`: the guards, then the flag and the event; the scan loop
        itself runs as `ScanLoop`. */
    method StartScanning()
      modifies this
      ensures Snapshot() == StartScanningStep(old(Snapshot())).state
      ensures posted == old(posted) + StartScanningStep(old(Snapshot())).events
      ensures delivered == old(delivered) + Deliver(listener, StartScanningStep(old(Snapshot())).events)
      ensures listener == old(listener)
    {
      if !connected {
        NotifyError(NotConnectedMessage);
        return;
      }
      if scanning {
        return;
      }
      scanning := true;
      tagCount := 0;
      Post(ScanningChanged(true));
    }

    method Cleanup()
      modifies this
      ensures Snapshot() == CleanupStep(old(Snapshot())).state
      ensures posted == old(posted) + CleanupStep(old(Snapshot())).events
      ensures delivered == old(delivered) + Deliver(listener, CleanupStep(old(Snapshot())).events)
      ensures listener == old(listener)
    {
      if connected {
        Disconnect();
      }
    }

    /** One pass of the scan loop: re-check the flag, then count and report a tag. */
    method EmitNextTag(offset: RssiOffset)
      modifies this
      ensures Snapshot() == ScanTick(old(Snapshot()), offset).state
      ensures posted == old(posted) + ScanTick(old(Snapshot()), offset).events
      ensures delivered == old(delivered) + Deliver(listener, ScanTick(old(Snapshot()), offset).events)
      ensures listener == old(listener)
    {
      if scanning {
        tagCount := NextCounter(tagCount);
        Post(TagFound(TagId(tagCount), Rssi(offset)));
      }
    }

    /** The scan loop of `simulateScanning`, one pass per offset drawn. */
    method ScanLoop(offsets: seq<RssiOffset>)
      modifies this
      ensures Snapshot() == ScanTicks(old(Snapshot()), offsets).state
      ensures posted == old(posted) + ScanTicks(old(Snapshot()), offsets).events
      ensures delivered == old(delivered) + Deliver(listener, ScanTicks(old(Snapshot()), offsets).events)
      ensures listener == old(listener)
    {
      ghost var start, posted0, delivered0 := Snapshot(), posted, delivered;
      var i := 0;
      while i < |offsets|
        invariant 0 <= i <= |offsets|
        invariant listener == old(listener)
        invariant Snapshot() == ScanTicks(start, offsets[..i]).state
        invariant posted == posted0 + ScanTicks(start, offsets[..i]).events
        invariant delivered == delivered0 + Deliver(listener, ScanTicks(start, offsets[..i]).events)
      {
        ScanLoopPass(start, offsets, i, listener, posted0, delivered0);
        EmitNextTag(offsets[i]);
        i := i + 1;
      }
      assert offsets[..i] == offsets;
    }
  }
}
