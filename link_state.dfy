/**
  The connection bookkeeping of the glove link as values: the inspector
  settings, the flags and counters the link keeps, and one transition function
  per thing that changes them (a BLE callback, a send outcome, the periodic
  health check, a step of the reconnect coroutine). The link class in
  GloveLink is proved to move its fields exactly as these functions say; the
  lemmas here state what the transitions guarantee.

  The reconnect coroutine is a resumable state: `reconnectAt` says at which
  `yield` it is suspended (None once it has ended or was stopped), and
  `ResumeReconnect` runs it from there to its next `yield` or to its end.
*/
module LinkState {
  import opened Wrappers
  import opened Strings

  const PoweredOn := "poweredOn"
  const ServiceUuid := "6E400001-B5A3-F393-E0A9-E50E24DCCA9E"
  const RxCharacteristicUuid := "6E400002-B5A3-F393-E0A9-E50E24DCCA9E"
  const TxCharacteristicUuid := "6E400003-B5A3-F393-E0A9-E50E24DCCA9E"
  const DefaultDeviceNames: seq<string> := ["ESP32-BLE", "FeltSight BLE"]

  /** The inspector settings of the link, with the values the component ships with in `DefaultSettings`. */
  datatype Settings = Settings(
    sendInterval: real,
    minVelocityThreshold: real,
    maxVelocityThreshold: real,
    volumeThreshold: real,
    normalVolume: int,
    enableVelocityFilter: bool,
    velocityFilterStrength: real,
    enableMagnitudeFilter: bool,
    magnitudeFilterStrength: real,
    deviceName: string,
    autoReconnect: bool,
    reconnectInterval: real,
    maxReconnectAttempts: int,
    failureThreshold: int)

  const DefaultSettings := Settings(
    sendInterval := 0.5,
    minVelocityThreshold := 0.0,
    maxVelocityThreshold := 0.3,
    volumeThreshold := 0.015,
    normalVolume := 75,
    enableVelocityFilter := true,
    velocityFilterStrength := 0.1,
    enableMagnitudeFilter := true,
    magnitudeFilterStrength := 0.15,
    deviceName := "ESP32-BLE,FeltSight BLE",
    autoReconnect := true,
    reconnectInterval := 3.0,
    maxReconnectAttempts := 0,
    failureThreshold := 3)

  /**
    Where the reconnect coroutine is suspended: inside the direct-connect wait
    after `steps` waits of 0.1 s, after stopping a running scan, after the scan
    wait, or in the pause before the next attempt.
  */
  datatype ReconnectPoint = DirectWait(steps: nat) | AfterStopScan | AfterScanWait | BeforeNextAttempt

  /**
    The connection state. `sendHandle` is whether the transmission coroutine
    handle is non-null; `sendRunning` whether that coroutine is still looping
    (a coroutine that left its loop keeps a non-null handle).
  */
  datatype Conn = Conn(
    hasCharacteristic: bool,
    ready: bool,
    scanStopped: bool,
    connecting: bool,
    reconnecting: bool,
    attempts: int,
    reconnectAt: Option<ReconnectPoint>,
    peripheral: Option<string>,
    failures: int,
    lastSuccess: real,
    lost: bool,
    sendHandle: bool,
    sendRunning: bool,
    sendCounter: int)

  /** The state of a link that has just started, at time `now`. */
  function InitialConn(now: real): Conn {
    Conn(false, false, false, false, false, 0, None, None, 0, now, false, false, false, 0)
  }

  // ---------------------------------------------------------------- device names

  /** Each entry trimmed. */
  function TrimAll(parts: seq<string>): (names: seq<string>)
    ensures |names| == |parts|
    ensures forall i :: 0 <= i < |parts| ==> names[i] == Trim(parts[i])
  {
    if |parts| == 0 then [] else [Trim(parts[0])] + TrimAll(parts[1..])
  }

  /** The device names to look for: the comma-separated, trimmed setting, or the defaults when it is empty. */
  function TargetDeviceNames(deviceName: string): (names: seq<string>)
    ensures |names| >= 1
    ensures forall i :: 0 <= i < |names| ==> ',' !in names[i]
    ensures forall i :: 0 <= i < |names| ==>
              |names[i]| > 0 ==> !IsWhiteSpace(names[i][0]) && !IsWhiteSpace(names[i][|names[i]| - 1])
  {
    if |deviceName| == 0 then DefaultDeviceNames
    else
      var parts := Split(deviceName, ',');
      forall i | 0 <= i < |parts|
        ensures ',' !in Trim(parts[i])
      {
        TrimIsInnerPiece(parts[i]);
      }
      TrimAll(parts)
  }

  /** A non-empty setting is split on commas and each entry trimmed. */
  lemma TargetDeviceNamesOfSetting(deviceName: string)
    requires |deviceName| > 0
    ensures TargetDeviceNames(deviceName) == TrimAll(Split(deviceName, ','))
  {
  }

  /** A setting of two trimmed, comma-free names separated by one comma lists exactly those two names. */
  lemma TwoNamesParsed(first: string, second: string)
    requires ',' !in first && ',' !in second
    requires |first| > 0 && !IsWhiteSpace(first[0]) && !IsWhiteSpace(first[|first| - 1])
    requires |second| > 0 && !IsWhiteSpace(second[0]) && !IsWhiteSpace(second[|second| - 1])
    ensures TargetDeviceNames(first + [','] + second) == [first, second]
  {
    SplitAtFirst(first, ',', second);
    SplitWithoutSeparator(second, ',');
    TrimOfTrimmed(first);
    TrimOfTrimmed(second);
  }

  /** The shipped setting lists exactly the two default names. */
  lemma DefaultDeviceNamesParsed()
    ensures TargetDeviceNames(DefaultSettings.deviceName) == DefaultDeviceNames
  {
    var first, second := DefaultDeviceNames[0], DefaultDeviceNames[1];
    assert DefaultSettings.deviceName == first + [','] + second;
    TwoNamesParsed(first, second);
  }

  /** Only an exact, case-sensitive match with a target name counts as the glove. */
  predicate IsTarget(names: seq<string>, name: string) {
    exists i :: 0 <= i < |names| && names[i] == name
  }

  // ---------------------------------------------------------------- reconnect coroutine

  /** StartScan: a new scan is running. */
  function StartScan(c: Conn): Conn {
    c.(scanStopped := false)
  }

  /** The scan part of an attempt: stop a running scan and wait, or start a scan and wait. */
  function ScanSegment(c: Conn): (r: Conn)
    ensures r.reconnectAt.Some?
    ensures r.attempts == c.attempts && r.reconnecting == c.reconnecting
  {
    if !c.scanStopped then c.(reconnectAt := Some(AfterStopScan))
    else StartScan(c).(reconnectAt := Some(AfterScanWait))
  }

  /** The coroutine ends because the link is ready again. */
  function Reconnected(c: Conn): Conn {
    c.(reconnecting := false, lost := false, reconnectAt := None)
  }

  /** The test of the direct-connect wait loop after `steps` waits of 0.1 s. */
  function DirectWaitCheck(cfg: Settings, c: Conn, steps: nat): (r: Conn)
    ensures r.attempts == c.attempts
    ensures r.reconnectAt.None? ==> c.ready && !r.reconnecting
    ensures r.reconnectAt.Some? ==> r.reconnecting == c.reconnecting
  {
    if (steps as real) / 10.0 < cfg.reconnectInterval && c.connecting then c.(reconnectAt := Some(DirectWait(steps)))
    else if c.ready then Reconnected(c)
    else ScanSegment(c)
  }

  /** The top of the reconnect loop: give up at the attempt limit, else count an attempt and try. */
  function AttemptFromTop(cfg: Settings, c: Conn): Conn {
    if cfg.maxReconnectAttempts > 0 && c.attempts >= cfg.maxReconnectAttempts then
      c.(reconnecting := false, reconnectAt := None)
    else
      var c1 := c.(attempts := c.attempts + 1);
      if c1.peripheral.Some? then DirectWaitCheck(cfg, c1.(connecting := true), 0)
      else ScanSegment(c1)
  }

  /** AttemptFromTop's two continuing branches, each as the step it hands over to. */
  lemma AttemptFromTopShape(cfg: Settings, c: Conn)
    ensures !(cfg.maxReconnectAttempts > 0 && c.attempts >= cfg.maxReconnectAttempts) && c.peripheral.Some? ==>
      AttemptFromTop(cfg, c) == DirectWaitCheck(cfg, c.(attempts := c.attempts + 1).(connecting := true), 0)
    ensures !(cfg.maxReconnectAttempts > 0 && c.attempts >= cfg.maxReconnectAttempts) && c.peripheral.None? ==>
      AttemptFromTop(cfg, c) == ScanSegment(c.(attempts := c.attempts + 1))
  {
  }

  /** StartReconnectProcess: replace any running coroutine, reset the count, run up to the first yield. */
  function StartReconnect(cfg: Settings, c: Conn): Conn {
    AttemptFromTop(cfg, c.(reconnecting := true, attempts := 0, reconnectAt := None))
  }

  /** StopReconnectProcess. */
  function StopReconnect(c: Conn): Conn {
    c.(reconnectAt := None, reconnecting := false)
  }

  /** Resume the reconnect coroutine after its current wait and run it to its next yield or its end. */
  function ResumeReconnect(cfg: Settings, c: Conn): Conn {
    match c.reconnectAt
    case None => c
    case Some(DirectWait(steps)) => DirectWaitCheck(cfg, c, steps + 1)
    case Some(AfterStopScan) => StartScan(c).(reconnectAt := Some(AfterScanWait))
    case Some(AfterScanWait) => if c.ready then Reconnected(c) else c.(reconnectAt := Some(BeforeNextAttempt))
    case Some(BeforeNextAttempt) => AttemptFromTop(cfg, c)
  }

  /** ResumeReconnect case by case, each as the step it runs. */
  lemma ResumeReconnectShape(cfg: Settings, c: Conn)
    ensures c.reconnectAt.None? ==> ResumeReconnect(cfg, c) == c
    ensures c.reconnectAt.Some? && c.reconnectAt.value.DirectWait? ==>
      ResumeReconnect(cfg, c) == DirectWaitCheck(cfg, c, c.reconnectAt.value.steps + 1)
    ensures c.reconnectAt == Some(AfterStopScan) ==> ResumeReconnect(cfg, c) == StartScan(c).(reconnectAt := Some(AfterScanWait))
    ensures c.reconnectAt == Some(AfterScanWait) && c.ready ==> ResumeReconnect(cfg, c) == Reconnected(c)
    ensures c.reconnectAt == Some(AfterScanWait) && !c.ready ==> ResumeReconnect(cfg, c) == c.(reconnectAt := Some(BeforeNextAttempt))
    ensures c.reconnectAt == Some(BeforeNextAttempt) ==> ResumeReconnect(cfg, c) == AttemptFromTop(cfg, c)
  {
  }

  /** Starting a reconnect while the link is down counts exactly one attempt and leaves the coroutine suspended. */
  lemma StartReconnectFirstAttempt(cfg: Settings, c: Conn)
    requires !c.ready
    ensures var r := StartReconnect(cfg, c);
      && r.attempts == 1 && r.reconnecting && r.reconnectAt.Some?
      && r.failures == c.failures && r.lastSuccess == c.lastSuccess && r.lost == c.lost && !r.ready
      && r.peripheral == c.peripheral && r.sendHandle == c.sendHandle && r.sendRunning == c.sendRunning
  {
    var c0 := c.(reconnecting := true, attempts := 0, reconnectAt := None);
    AttemptFromTopShape(cfg, c0);
    if c0.peripheral.Some? {
      var c2 := c0.(attempts := 1).(connecting := true);
      if 0.0 < cfg.reconnectInterval {
        assert DirectWaitCheck(cfg, c2, 0) == c2.(reconnectAt := Some(DirectWait(0)));
      } else {
        assert DirectWaitCheck(cfg, c2, 0) == ScanSegment(c2);
      }
    }
  }

  /** Each pass through the loop top either ends the coroutine at the limit or counts exactly one more attempt. */
  lemma AttemptCounting(cfg: Settings, c: Conn)
    ensures var r := AttemptFromTop(cfg, c);
      if cfg.maxReconnectAttempts > 0 && c.attempts >= cfg.maxReconnectAttempts then
        r.attempts == c.attempts && !r.reconnecting && r.reconnectAt.None?
      else
        r.attempts == c.attempts + 1
  {
    AttemptFromTopShape(cfg, c);
  }

  /** With a positive limit the attempt count never passes it. */
  ghost predicate AttemptsWithinLimit(cfg: Settings, c: Conn) {
    cfg.maxReconnectAttempts > 0 ==> c.attempts <= cfg.maxReconnectAttempts
  }

  /** A suspended direct-connect wait is one the loop test let through. */
  ghost predicate WaitConsistent(cfg: Settings, c: Conn) {
    c.reconnectAt.Some? && c.reconnectAt.value.DirectWait? ==>
      (c.reconnectAt.value.steps as real) / 10.0 < cfg.reconnectInterval
  }

  /** The invariant of the reconnect machinery. */
  ghost predicate ReconnectInv(cfg: Settings, c: Conn) {
    AttemptsWithinLimit(cfg, c) && WaitConsistent(cfg, c)
  }

  lemma DirectWaitCheckKeepsInv(cfg: Settings, c: Conn, steps: nat)
    requires AttemptsWithinLimit(cfg, c)
    ensures ReconnectInv(cfg, DirectWaitCheck(cfg, c, steps))
    ensures DirectWaitCheck(cfg, c, steps).attempts == c.attempts
  {
    if !((steps as real) / 10.0 < cfg.reconnectInterval && c.connecting) && !c.ready {
      ScanSegmentKeepsInv(cfg, c);
    }
  }

  lemma ScanSegmentKeepsInv(cfg: Settings, c: Conn)
    requires AttemptsWithinLimit(cfg, c)
    ensures ReconnectInv(cfg, ScanSegment(c))
    ensures ScanSegment(c).attempts == c.attempts
  {
    var r := ScanSegment(c);
    assert r.reconnectAt == Some(AfterStopScan) || r.reconnectAt == Some(AfterScanWait);
  }

  lemma AttemptFromTopKeepsInv(cfg: Settings, c: Conn)
    requires AttemptsWithinLimit(cfg, c)
    ensures ReconnectInv(cfg, AttemptFromTop(cfg, c))
  {
    if cfg.maxReconnectAttempts > 0 && c.attempts >= cfg.maxReconnectAttempts {
      assert AttemptFromTop(cfg, c) == c.(reconnecting := false, reconnectAt := None);
    } else {
      var c1 := c.(attempts := c.attempts + 1);
      assert AttemptsWithinLimit(cfg, c1);
      if c1.peripheral.Some? {
        assert AttemptFromTop(cfg, c) == DirectWaitCheck(cfg, c1.(connecting := true), 0);
        DirectWaitCheckKeepsInv(cfg, c1.(connecting := true), 0);
      } else {
        assert AttemptFromTop(cfg, c) == ScanSegment(c1);
        ScanSegmentKeepsInv(cfg, c1);
      }
    }
  }

  /** Every step of the reconnect coroutine keeps the attempt count within a positive limit. */
  lemma ResumeKeepsInv(cfg: Settings, c: Conn)
    requires ReconnectInv(cfg, c)
    ensures ReconnectInv(cfg, ResumeReconnect(cfg, c))
  {
    ResumeReconnectShape(cfg, c);
    if c.reconnectAt.Some? {
      match c.reconnectAt.value {
        case DirectWait(steps) => DirectWaitCheckKeepsInv(cfg, c, steps + 1);
        case AfterStopScan =>
        case AfterScanWait =>
        case BeforeNextAttempt => AttemptFromTopKeepsInv(cfg, c);
      }
    }
  }

  lemma StartReconnectKeepsInv(cfg: Settings, c: Conn)
    ensures ReconnectInv(cfg, StartReconnect(cfg, c))
  {
    AttemptFromTopKeepsInv(cfg, c.(reconnecting := true, attempts := 0, reconnectAt := None));
  }

  /** The coroutine state after `n` resumptions with no other event in between. */
  function ResumeTimes(cfg: Settings, c: Conn, n: nat): Conn
    decreases n
  {
    if n == 0 then c else ResumeTimes(cfg, ResumeReconnect(cfg, c), n - 1)
  }

  /** How far a suspended coroutine is from the next attempt: later points of an attempt rank lower. */
  function PhaseRank(c: Conn): nat {
    match c.reconnectAt
    case None => 0
    case Some(DirectWait(_)) => 3
    case Some(AfterStopScan) => 2
    case Some(AfterScanWait) => 1
    case Some(BeforeNextAttempt) => 0
  }

  /** The number of 0.1 s waits the direct-connect loop may still take. */
  function WaitsLeft(cfg: Settings, c: Conn): nat {
    match c.reconnectAt
    case Some(DirectWait(steps)) =>
      var bound := (cfg.reconnectInterval * 10.0).Floor;
      if bound - steps >= 0 then bound - steps else 0
    case _ => 0
  }

  /** A wait the loop test let through leaves at least that wait on the clock. */
  lemma WaitBound(cfg: Settings, steps: nat)
    requires (steps as real) / 10.0 < cfg.reconnectInterval
    ensures steps <= (cfg.reconnectInterval * 10.0).Floor
  {
    assert (steps as real) < cfg.reconnectInterval * 10.0;
  }

  /**
    One resumption that leaves the coroutine suspended makes progress: it
    counts an attempt, or moves to a later point of the same attempt, or takes
    one more of the finitely many 0.1 s waits.
  */
  lemma ResumeProgresses(cfg: Settings, c: Conn)
    requires ReconnectInv(cfg, c)
    requires c.reconnectAt.Some? && ResumeReconnect(cfg, c).reconnectAt.Some?
    ensures var r := ResumeReconnect(cfg, c);
      || r.attempts == c.attempts + 1
      || (r.attempts == c.attempts && PhaseRank(r) < PhaseRank(c))
      || (r.attempts == c.attempts && PhaseRank(r) == PhaseRank(c) && WaitsLeft(cfg, r) < WaitsLeft(cfg, c))
  {
    ResumeReconnectShape(cfg, c);
    match c.reconnectAt.value
    case DirectWait(steps) =>
      DirectWaitProgresses(cfg, c, steps);
    case AfterStopScan =>
      assert PhaseRank(ResumeReconnect(cfg, c)) == 1;
    case AfterScanWait =>
      assert PhaseRank(ResumeReconnect(cfg, c)) == 0;
    case BeforeNextAttempt =>
      AttemptCounting(cfg, c);
  }

  lemma DirectWaitProgresses(cfg: Settings, c: Conn, steps: nat)
    requires c.reconnectAt == Some(DirectWait(steps))
    requires (steps as real) / 10.0 < cfg.reconnectInterval
    ensures var r := DirectWaitCheck(cfg, c, steps + 1);
      r.reconnectAt.Some? ==>
        r.attempts == c.attempts
        && (PhaseRank(r) < PhaseRank(c) || (PhaseRank(r) == PhaseRank(c) && WaitsLeft(cfg, r) < WaitsLeft(cfg, c)))
  {
    var r := DirectWaitCheck(cfg, c, steps + 1);
    WaitBound(cfg, steps);
    if ((steps + 1) as real) / 10.0 < cfg.reconnectInterval && c.connecting {
      WaitBound(cfg, steps + 1);
      assert r.reconnectAt == Some(DirectWait(steps + 1));
    }
  }

  /**
    With a positive attempt limit the reconnect coroutine ends after finitely
    many resumptions when nothing else happens, and it always ends with the
    reconnecting flag cleared (on success or at the limit). A limit of 0 means
    no such bound.
  */
  lemma {:induction false} ReconnectLoopEnds(cfg: Settings, c: Conn)
    requires cfg.maxReconnectAttempts > 0
    requires ReconnectInv(cfg, c)
    ensures exists n: nat :: ResumeTimes(cfg, c, n).reconnectAt.None?
                          && (c.reconnectAt.Some? ==> !ResumeTimes(cfg, c, n).reconnecting)
    decreases cfg.maxReconnectAttempts - c.attempts, PhaseRank(c), WaitsLeft(cfg, c)
  {
    if c.reconnectAt.None? {
      assert ResumeTimes(cfg, c, 0) == c;
    } else {
      var next := ResumeReconnect(cfg, c);
      ResumeKeepsInv(cfg, c);
      if next.reconnectAt.None? {
        EndedCleared(cfg, c);
        assert ResumeTimes(cfg, c, 1) == next;
      } else {
        ResumeProgresses(cfg, c);
        ReconnectLoopEnds(cfg, next);
        var n: nat :| ResumeTimes(cfg, next, n).reconnectAt.None?
                    && (next.reconnectAt.Some? ==> !ResumeTimes(cfg, next, n).reconnecting);
        assert ResumeTimes(cfg, c, n + 1) == ResumeTimes(cfg, next, n);
      }
    }
  }

  /** When a resumption ends the coroutine, the reconnecting flag is cleared. */
  lemma EndedCleared(cfg: Settings, c: Conn)
    requires c.reconnectAt.Some? && ResumeReconnect(cfg, c).reconnectAt.None?
    ensures !ResumeReconnect(cfg, c).reconnecting
  {
    var p := c.reconnectAt.value;
    if p.BeforeNextAttempt? {
      AttemptEndedCleared(cfg, c);
    }
  }

  lemma AttemptEndedCleared(cfg: Settings, c: Conn)
    requires AttemptFromTop(cfg, c).reconnectAt.None?
    ensures !AttemptFromTop(cfg, c).reconnecting
  {
    AttemptFromTopShape(cfg, c);
  }

  // ---------------------------------------------------------------- health accounting

  /** The guard of SendDataToESP32: a characteristic, a ready link and no declared loss. */
  predicate CanSend(c: Conn) {
    c.hasCharacteristic && c.ready && !c.lost
  }

  /** A failed send: count it, and at the threshold declare the link lost and maybe start reconnecting. */
  function SendFailed(cfg: Settings, c: Conn): Conn {
    var c1 := c.(failures := c.failures + 1);
    if c1.failures >= cfg.failureThreshold && !c1.lost then
      var c2 := c1.(lost := true, ready := false);
      if cfg.autoReconnect && !c2.reconnecting then StartReconnect(cfg, c2) else c2
    else c1
  }

  /** SendDataToESP32's effect on the connection state, for a transport write that succeeds or throws. */
  function SendOutcome(cfg: Settings, c: Conn, writeOk: bool, now: real): Conn {
    if !CanSend(c) then SendFailed(cfg, c)
    else if writeOk then c.(failures := 0, lastSuccess := now)
    else SendFailed(cfg, c)
  }

  /** A successful write clears the failure count, records the time and changes nothing else. */
  lemma SendSuccessResets(cfg: Settings, c: Conn, now: real)
    requires CanSend(c)
    ensures SendOutcome(cfg, c, true, now) == c.(failures := 0, lastSuccess := now)
  {
  }

  /**
    The failure path of SendDataToESP32, taken for a refused and for a failed
    write alike, adds exactly one failure. The link is declared lost exactly
    when that reaches the threshold and it was not lost yet, and a reconnect
    starts then only with auto-reconnect on and none running; otherwise the
    reconnect state is untouched.
  */
  lemma SendFailureAccounting(cfg: Settings, c: Conn)
    ensures var r := SendFailed(cfg, c);
      var declares := c.failures + 1 >= cfg.failureThreshold && !c.lost;
      var starts := declares && cfg.autoReconnect && !c.reconnecting;
      && r.failures == c.failures + 1
      && r.lastSuccess == c.lastSuccess
      && (r.lost <==> c.lost || declares)
      && (declares ==> !r.ready)
      && (!declares ==> r == c.(failures := c.failures + 1))
      && (starts ==> r.reconnecting && r.attempts == 1 && r.reconnectAt.Some?)
      && (!starts ==> r.reconnecting == c.reconnecting && r.attempts == c.attempts && r.reconnectAt == c.reconnectAt)
  {
    var c1 := c.(failures := c.failures + 1);
    if c1.failures >= cfg.failureThreshold && !c1.lost {
      var c2 := c1.(lost := true, ready := false);
      if cfg.autoReconnect && !c2.reconnecting {
        StartReconnectFirstAttempt(cfg, c2);
      }
    }
  }

  /**
    CheckConnectionStatus: skipped while lost, reconnecting or not ready;
    otherwise the link is declared lost only when it has been silent for more
    than five send intervals AND the failures reached the threshold.
  */
  function CheckStatus(cfg: Settings, c: Conn, now: real): Conn {
    if c.lost || c.reconnecting || !c.ready then c
    else if now - c.lastSuccess > cfg.sendInterval * 5.0 && c.failures >= cfg.failureThreshold then
      var c2 := c.(lost := true, ready := false);
      if cfg.autoReconnect then StartReconnect(cfg, c2) else c2
    else c
  }

  /** The health check declares loss exactly under both conditions together, and then starts a reconnect iff enabled. */
  lemma CheckStatusDeclaresLoss(cfg: Settings, c: Conn, now: real)
    ensures var r := CheckStatus(cfg, c, now);
      var declares := !c.lost && !c.reconnecting && c.ready
                      && now - c.lastSuccess > cfg.sendInterval * 5.0 && c.failures >= cfg.failureThreshold;
      && (!declares ==> r == c)
      && (declares ==> r.lost && !r.ready && r.failures == c.failures)
      && (declares ==> (r.reconnecting <==> cfg.autoReconnect))
      && (declares && cfg.autoReconnect ==> r.attempts == 1)
  {
    if !c.lost && !c.reconnecting && c.ready
       && now - c.lastSuccess > cfg.sendInterval * 5.0 && c.failures >= cfg.failureThreshold && cfg.autoReconnect {
      StartReconnectFirstAttempt(cfg, c.(lost := true, ready := false));
    }
  }

  /** A silent link with few failures, or a busy link that keeps failing, is not declared lost by the check. */
  lemma CheckStatusNeedsBoth(cfg: Settings, c: Conn, now: real)
    requires now - c.lastSuccess <= cfg.sendInterval * 5.0 || c.failures < cfg.failureThreshold
    ensures CheckStatus(cfg, c, now) == c
  {
  }

  // ---------------------------------------------------------------- transmission coroutine

  /**
    One pass of the transmission loop (SendDataPeriodically) after its wait:
    while the link is ready and not lost it sends a frame when there is a
    characteristic (counting a failure otherwise); once that test fails the
    coroutine ends and, as corrected here, releases its handle.
  */
  function SendTick(cfg: Settings, c: Conn, writeOk: bool, now: real): Conn {
    if !c.sendRunning then c
    else if c.ready && !c.lost then
      if c.hasCharacteristic then SendOutcome(cfg, c, writeOk, now).(sendCounter := c.sendCounter + 1)
      else c.(failures := c.failures + 1)
    else c.(sendRunning := false, sendHandle := false)
  }

  /** The transmission loop as the component has it: on leaving its loop the coroutine keeps its non-null handle. */
  function SendTickAsWritten(cfg: Settings, c: Conn, writeOk: bool, now: real): Conn {
    if !c.sendRunning then c
    else if c.ready && !c.lost then
      if c.hasCharacteristic then SendOutcome(cfg, c, writeOk, now).(sendCounter := c.sendCounter + 1)
      else c.(failures := c.failures + 1)
    else c.(sendRunning := false)
  }

  /** StartDataTransmission: stop a previous loop, then start a new one (and run its first pass) only once the scan has stopped. */
  function StartSending(cfg: Settings, c: Conn, writeOk: bool, now: real): Conn {
    var c1 := if c.sendHandle then c.(sendRunning := false) else c;
    if c1.scanStopped then SendTick(cfg, c1.(sendHandle := true, sendRunning := true, sendCounter := 0), writeOk, now)
    else c1
  }

  /** StopDataTransmission. */
  function StopSending(c: Conn): (r: Conn)
    ensures !r.sendHandle
    ensures c.sendHandle ==> !r.sendRunning
    ensures r.(sendHandle := c.sendHandle, sendRunning := c.sendRunning) == c
  {
    if c.sendHandle then c.(sendRunning := false, sendHandle := false) else c
  }

  /** OnDiscoverCharacteristic: the RX characteristic makes the link ready and starts transmission unless a handle exists. */
  function OnDiscoverCharacteristic(cfg: Settings, c: Conn, uuid: string, writeOk: bool, now: real): Conn {
    if !IsRxCharacteristic(uuid) then c
    else
      var c1 := c.(hasCharacteristic := true, ready := true, lastSuccess := now);
      if !c1.sendHandle then StartSending(cfg, c1, writeOk, now) else c1
  }

  /** The glove's RX characteristic, in any letter case. */
  predicate IsRxCharacteristic(uuid: string) {
    ToUpper(uuid) == RxCharacteristicUuid
  }

  /** OnDiscoverService: only the glove's UART service (in any letter case) leads to characteristic discovery. */
  predicate WantsCharacteristics(uuid: string) {
    ToUpper(uuid) == ServiceUuid
  }

  /** SendSingleData: one frame, only on a ready, scan-stopped, not-lost link with a characteristic. */
  function SendSingle(cfg: Settings, c: Conn, writeOk: bool, now: real): Conn {
    if c.ready && c.hasCharacteristic && c.scanStopped && !c.lost then SendOutcome(cfg, c, writeOk, now) else c
  }

  /** The extra frame SetVelocityMultiplier sends while a transmission handle exists on a healthy link. */
  function MultiplierResend(cfg: Settings, c: Conn, writeOk: bool, now: real): Conn {
    if c.sendHandle && c.ready && c.hasCharacteristic && !c.lost then SendOutcome(cfg, c, writeOk, now) else c
  }

  /**
    ToggleDataTransmission: stop a transmission that has a handle; else start
    one on a ready, scan-stopped, not-lost link; else, on a lost link, start a
    reconnect if enabled and none is running.
  */
  function ToggleSending(cfg: Settings, c: Conn, writeOk: bool, now: real): Conn {
    if c.sendHandle then StopSending(c)
    else if c.ready && c.scanStopped && !c.lost then StartSending(cfg, c, writeOk, now)
    else if !c.scanStopped then c
    else if c.lost && cfg.autoReconnect && !c.reconnecting then StartReconnect(cfg, c)
    else c
  }

  /** Toggling stops a running transmission, and starts one on a healthy, scan-stopped link. */
  lemma ToggleEffect(cfg: Settings, c: Conn, writeOk: bool, now: real)
    ensures c.sendHandle ==> var r := ToggleSending(cfg, c, writeOk, now); !r.sendHandle && !r.sendRunning
    ensures !c.sendHandle && c.ready && c.scanStopped && !c.lost ==>
      var r := ToggleSending(cfg, c, writeOk, now); r.sendHandle && r.sendRunning && r.sendCounter == (if c.hasCharacteristic then 1 else 0)
    ensures !c.sendHandle && !c.scanStopped ==> ToggleSending(cfg, c, writeOk, now) == c
  {
    if !c.sendHandle && c.ready && c.scanStopped && !c.lost {
      var c1 := c.(sendHandle := true, sendRunning := true, sendCounter := 0);
      assert StartSending(cfg, c, writeOk, now) == SendTick(cfg, c1, writeOk, now);
    }
  }

  /** A loop pass on a healthy link with a characteristic sends one frame and stays running. */
  lemma SendTickSends(cfg: Settings, c: Conn, writeOk: bool, now: real)
    requires c.sendRunning && CanSend(c)
    ensures var r := SendTick(cfg, c, writeOk, now);
      r.sendCounter == c.sendCounter + 1 && r.sendRunning && r.sendHandle == c.sendHandle
      && (writeOk ==> r.failures == 0 && r.lastSuccess == now)
      && (!writeOk ==> r.failures == c.failures + 1)
  {
    if !writeOk {
      SendFailureAccounting(cfg, c);
    }
  }

  /**
    As written, a transmission loop that ended when the link went down keeps
    its handle, so after the glove reconnects and its characteristic is found
    again the loop is not restarted and no further pass sends anything.
  */
  lemma StaleSendHandle(cfg: Settings, c: Conn, name: string, rx: string, w1: bool, t1: real, w2: bool, t2: real, w3: bool, t3: real)
    requires IsRxCharacteristic(rx)
    requires c.sendHandle && c.sendRunning && (!c.ready || c.lost)
    ensures var ended := SendTickAsWritten(cfg, c, w1, t1);
      var back := OnDiscoverCharacteristic(cfg, OnConnectPeripheral(ended, name), rx, w2, t2);
      && ended.sendHandle && !ended.sendRunning
      && back.ready && !back.lost && !back.sendRunning
      && SendTickAsWritten(cfg, back, w3, t3) == back
  {
    var ended := SendTickAsWritten(cfg, c, w1, t1);
    assert ended == c.(sendRunning := false);
    var c1 := OnConnectPeripheral(ended, name).(hasCharacteristic := true, ready := true, lastSuccess := t2);
    assert OnDiscoverCharacteristic(cfg, OnConnectPeripheral(ended, name), rx, w2, t2) == c1;
  }

  /**
    With the handle released when the loop ends, the reconnected link resumes
    transmission as soon as its characteristic is found again (the scan having
    stopped): the loop runs and its first pass is a send.
  */
  lemma ReconnectResumesSending(cfg: Settings, c: Conn, name: string, rx: string, w1: bool, t1: real, w2: bool, t2: real)
    requires IsRxCharacteristic(rx)
    requires c.sendHandle && c.sendRunning && (!c.ready || c.lost)
    requires c.scanStopped
    ensures var ended := SendTick(cfg, c, w1, t1);
      var back := OnDiscoverCharacteristic(cfg, OnConnectPeripheral(ended, name), rx, w2, t2);
      && !ended.sendHandle && !ended.sendRunning
      && back.sendHandle && back.sendRunning && back.sendCounter == 1
  {
    var ended := SendTick(cfg, c, w1, t1);
    assert ended == c.(sendRunning := false, sendHandle := false);
    var c1 := OnConnectPeripheral(ended, name).(hasCharacteristic := true, ready := true, lastSuccess := t2);
    var c2 := c1.(sendHandle := true, sendRunning := true, sendCounter := 0);
    assert OnDiscoverCharacteristic(cfg, OnConnectPeripheral(ended, name), rx, w2, t2) == SendTick(cfg, c2, w2, t2);
    SendTickSends(cfg, c2, w2, t2);
  }

  // ---------------------------------------------------------------- callbacks and commands

  /** OnUpdateState: only "poweredOn" matters, and it starts a scan unless a reconnect is running. */
  function OnUpdateState(c: Conn, state: string): Conn {
    if state != PoweredOn then c
    else if !c.reconnecting then StartScan(c)
    else c
  }

  /** OnDiscoverPeripheral: a target name stops the scan and starts connecting; anything else is ignored. */
  function OnDiscoverPeripheral(names: seq<string>, c: Conn, name: string): Conn {
    if IsTarget(names, name) then c.(scanStopped := true, connecting := true) else c
  }

  /** OnConnectPeripheral: remember the device and clear connecting, reconnecting, attempts, failures and loss. */
  function OnConnectPeripheral(c: Conn, name: string): (r: Conn)
    ensures r.peripheral == Some(name)
    ensures !r.connecting && !r.reconnecting && !r.lost && r.attempts == 0 && r.failures == 0
    ensures r.ready == c.ready && r.reconnectAt == c.reconnectAt && r.scanStopped == c.scanStopped
  {
    c.(peripheral := Some(name), connecting := false, reconnecting := false, attempts := 0, failures := 0, lost := false)
  }

  /** Only the exact names in the list start a connection. */
  lemma DiscoveryMatchesExactly(names: seq<string>, c: Conn, name: string)
    ensures IsTarget(names, name) ==> OnDiscoverPeripheral(names, c, name) == c.(scanStopped := true, connecting := true)
    ensures !IsTarget(names, name) ==> OnDiscoverPeripheral(names, c, name) == c
  {
  }

  /** With the shipped setting, exactly "ESP32-BLE" and "FeltSight BLE" are targets. */
  lemma DefaultTargets(name: string)
    ensures IsTarget(TargetDeviceNames(DefaultSettings.deviceName), name) <==> name == "ESP32-BLE" || name == "FeltSight BLE"
  {
    DefaultDeviceNamesParsed();
    var names := TargetDeviceNames(DefaultSettings.deviceName);
    if IsTarget(names, name) {
      var i :| 0 <= i < |names| && names[i] == name;
      assert i == 0 || i == 1;
    }
    if name == DefaultDeviceNames[0] {
      assert names[0] == name;
    } else if name == DefaultDeviceNames[1] {
      assert names[1] == name;
    }
  }

  /** ManualReconnect: nothing to do on a healthy link; otherwise restart the reconnect from scratch. */
  function ManualReconnect(cfg: Settings, c: Conn): Conn {
    if c.ready && !c.lost then c
    else
      var c1 := if c.reconnecting then StopReconnect(c) else c;
      StartReconnect(cfg, c1.(ready := false, lost := true))
  }

  /** A manual reconnect leaves a healthy link alone and otherwise marks it lost and counts one fresh attempt. */
  lemma ManualReconnectEffect(cfg: Settings, c: Conn)
    ensures c.ready && !c.lost ==> ManualReconnect(cfg, c) == c
    ensures !(c.ready && !c.lost) ==>
      var r := ManualReconnect(cfg, c);
      r.lost && !r.ready && r.reconnecting && r.attempts == 1 && r.reconnectAt.Some?
  {
    if !(c.ready && !c.lost) {
      var c1 := if c.reconnecting then StopReconnect(c) else c;
      StartReconnectFirstAttempt(cfg, c1.(ready := false, lost := true));
    }
  }

  /** The connection summary GetConnectionStatus reports, without its text formatting. */
  datatype ConnectionStatus =
    | Connected(device: Option<string>)
    | Reconnecting(attempt: int)
    | Connecting
    | Scanning
    | ConnectionLost
    | NotConnected

  /** GetConnectionStatus: the first matching case in the order the component tests them. */
  function StatusOf(c: Conn): (s: ConnectionStatus)
    ensures s.Connected? <==> c.ready && !c.lost
    ensures s.Connected? ==> s.device == c.peripheral
    ensures s.Reconnecting? <==> !(c.ready && !c.lost) && c.reconnecting
    ensures s.Reconnecting? ==> s.attempt == c.attempts
    ensures s.Connecting? <==> !(c.ready && !c.lost) && !c.reconnecting && c.connecting
    ensures s.Scanning? <==> !(c.ready && !c.lost) && !c.reconnecting && !c.connecting && !c.scanStopped
    ensures s.ConnectionLost? <==> c.lost && !c.reconnecting && !c.connecting && c.scanStopped
    ensures s.NotConnected? <==> !c.ready && !c.lost && !c.reconnecting && !c.connecting && c.scanStopped
  {
    if c.ready && !c.lost then Connected(c.peripheral)
    else if c.reconnecting then Reconnecting(c.attempts)
    else if c.connecting then Connecting
    else if !c.scanStopped then Scanning
    else if c.lost then ConnectionLost
    else NotConnected
  }
}
