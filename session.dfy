/**
 * The bridge's module-level state and every transition of it, as values:
 * the sampling timer (`interval`, `currentIntervalID`), the BLE session
 * (`isConnected`, `txChar`, `device`), and what the outside world sees of
 * them (the live repeating timers, the writes on the TX characteristic, the
 * disconnect requests).  The class in BridgeScript performs these
 * transitions in place; the lemmas here state what they guarantee.
 */
module Session {
  import opened Wrappers
  import opened JsText
  import opened JsNumber
  import opened FrameCodec
  import opened IntervalPolicy

  /** A resolved TX characteristic object. */
  datatype Handle = Handle(id: nat)

  /** A device object returned by discovery. */
  datatype Device = Device(id: nat)

  /** One `txChar.writeValue(Buffer.from(text))` call. */
  datatype TxWrite = TxWrite(target: Handle, text: JsString)

  datatype State = State(
    interval: Decimal,                 // the local sampling period, ms
    currentIntervalID: Option<nat>,    // the timer the script holds
    timers: map<nat, Decimal>,         // live repeating timers and their periods
    nextTimerId: nat,                  // the id the next setInterval returns
    isConnected: bool,
    txChar: Option<Handle>,
    device: Option<Device>,
    nextObjectId: nat,                 // the id the next device or handle gets
    txWrites: seq<TxWrite>,            // every write issued on a TX handle
    disconnectRequests: seq<Device>)   // every device.disconnect() issued

  /** The state when the script starts: a 1000 ms interval, no timer, no link. */
  const Initial: State := State(MinPeriod, None, map[], 0, false, None, None, 0, [], [])

  /** The timer the script holds is the only live one; none is live without it. */
  predicate TimersValid(s: State) {
    match s.currentIntervalID
    case None => s.timers == map[]
    case Some(id) => s.timers.Keys == {id} && id < s.nextTimerId
  }

  predicate Valid(s: State) {
    && TimersValid(s)
    && (s.txChar.Some? ==> s.txChar.value.id < s.nextObjectId)
    && (s.device.Some? ==> s.device.value.id < s.nextObjectId)
  }

  lemma InitialValid()
    ensures Valid(Initial)
  {
  }

  // ---------------------------------------------------------------------
  // The sampling timer

  /**
   * `startSensorUpdates(period)`: clear the held timer if there is one, then
   * start a new repeating timer. Afterwards exactly one timer is live, it
   * runs at `period`, and it is a new one.
   */
  function StartSensorUpdates(s: State, period: Decimal): (r: State)
    requires TimersValid(s)
    ensures TimersValid(r)
    ensures r.timers == map[s.nextTimerId := period]
    ensures r.currentIntervalID == Some(s.nextTimerId)
    ensures s.currentIntervalID.Some? ==> s.currentIntervalID.value !in r.timers
    ensures Valid(s) ==> Valid(r)
    ensures r == s.(currentIntervalID := r.currentIntervalID, timers := r.timers, nextTimerId := s.nextTimerId + 1)
  {
    match s.currentIntervalID
    case None =>
      s.(currentIntervalID := Some(s.nextTimerId),
         timers := s.timers[s.nextTimerId := period],
         nextTimerId := s.nextTimerId + 1)
    case Some(old_id) =>
      var cleared := s.timers - {old_id};
      s.(currentIntervalID := Some(s.nextTimerId),
         timers := cleared[s.nextTimerId := period],
         nextTimerId := s.nextTimerId + 1)
  }

  /** Re-arming any number of times in a row leaves one timer, at the last period. */
  lemma {:induction false} RearmRepeatedly(s: State, periods: seq<Decimal>)
    requires TimersValid(s) && |periods| > 0
    ensures var r := RearmAll(s, periods);
      r.timers == map[s.nextTimerId + |periods| - 1 := periods[|periods| - 1]]
  {
    if |periods| > 1 {
      RearmRepeatedly(s, periods[..|periods| - 1]);
    }
  }

  /** `startSensorUpdates` called once for each period, in order. */
  function RearmAll(s: State, periods: seq<Decimal>): (r: State)
    requires TimersValid(s)
    ensures TimersValid(r)
    ensures r.nextTimerId == s.nextTimerId + |periods|
  {
    if periods == [] then s
    else StartSensorUpdates(RearmAll(s, periods[..|periods| - 1]), periods[|periods| - 1])
  }

  /**
   * `startApp`: after a successful anonymous sign-in the sampler starts at
   * the current interval; a failed sign-in starts nothing.
   */
  function StartApp(s: State, signedIn: bool): (r: State)
    requires TimersValid(s)
    ensures signedIn ==> r == s.(currentIntervalID := Some(s.nextTimerId),
                                 timers := map[s.nextTimerId := s.interval],
                                 nextTimerId := s.nextTimerId + 1)
    ensures !signedIn ==> r == s
  {
    if signedIn then StartSensorUpdates(s, s.interval) else s
  }

  // ---------------------------------------------------------------------
  // The interval listener, the disconnect handler and the console

  /** True when a write on the TX characteristic goes ahead (`txChar && isConnected`). */
  predicate CanWrite(s: State)
    ensures CanWrite(s) ==> s.txChar.Some?
    ensures !s.isConnected ==> !CanWrite(s)
  {
    s.txChar.Some? && s.isConnected
  }

  /** `txChar.writeValue(...)` on the current handle. */
  function Write(s: State, text: JsString): (r: State)
    requires s.txChar.Some?
    ensures r.txWrites == s.txWrites + [TxWrite(s.txChar.value, text)]
    ensures r == s.(txWrites := r.txWrites)
  {
    s.(txWrites := s.txWrites + [TxWrite(s.txChar.value, text)])
  }

  /**
   * The `state/Interval` change handler: bound the period, send it to the
   * peripheral when the link allows it, then store it and re-arm the sampler
   * with it whatever happened to the write.
   */
  function IntervalChanged(s: State, seconds: Number): (r: State)
    requires TimersValid(s)
    ensures 1000.0 <= Value(r.interval) <= 10000.0
    ensures r.timers == map[s.nextTimerId := r.interval]
    ensures r.txWrites == if CanWrite(s)
      then s.txWrites + [TxWrite(s.txChar.value, IntervalCommand(r.interval))]
      else s.txWrites
    ensures r.interval == ListenerPeriod(seconds)
    ensures r == s.(interval := r.interval, currentIntervalID := Some(s.nextTimerId), timers := r.timers,
                    nextTimerId := s.nextTimerId + 1, txWrites := r.txWrites)
    ensures Valid(s) ==> Valid(r)
  {
    var ms := ListenerPeriod(seconds);
    var sent := if CanWrite(s) then Write(s, IntervalCommand(ms)) else s;
    StartSensorUpdates(sent.(interval := ms), ms)
  }

  /** The listener's period is the seconds times 1000 whenever those lie in [1, 10]. */
  lemma IntervalChangedInRange(s: State, seconds: Number)
    requires TimersValid(s)
    requires seconds.Finite? && 1.0 <= Value(seconds.d) <= 10.0
    ensures Value(IntervalChanged(s, seconds).interval) == 1000.0 * Value(seconds.d)
  {
  }

  /** The device's `disconnect` handler: clear the flag and the TX handle together. */
  function DeviceDisconnected(s: State): (r: State)
    ensures !CanWrite(r)
    ensures r == s.(isConnected := false, txChar := None)
    ensures Valid(s) ==> Valid(r)
  {
    s.(isConnected := false, txChar := None)
  }

  datatype ConsoleStep = ConsoleStep(next: State, exits: bool)

  /**
   * The console's `data` handler for one line. "exit" (after trimming)
   * disconnects a connected device and ends the process; when that
   * disconnect rejects (`disconnectOk` false), the rejection escapes the
   * handler before the process ends. Any other line is cut to its first 20
   * code units and written when the link allows it.
   */
  function ConsoleLine(s: State, line: JsString, disconnectOk: bool): (r: ConsoleStep)
    ensures r.exits <==> Trim(line) == ExitLine && (disconnectOk || !(s.device.Some? && s.isConnected))
    ensures Trim(line) == ExitLine ==> r.next.txWrites == s.txWrites
    ensures Trim(line) == ExitLine ==> r.next.disconnectRequests == if s.device.Some? && s.isConnected
      then s.disconnectRequests + [s.device.value]
      else s.disconnectRequests
    ensures Trim(line) != ExitLine ==> r.next.disconnectRequests == s.disconnectRequests
    ensures Trim(line) != ExitLine && CanWrite(s) ==>
      r.next.txWrites == s.txWrites + [TxWrite(s.txChar.value, Truncate(Trim(line)))]
    ensures Trim(line) != ExitLine && !CanWrite(s) ==> r.next.txWrites == s.txWrites
    ensures r.next == s.(txWrites := r.next.txWrites, disconnectRequests := r.next.disconnectRequests)
    ensures Valid(s) ==> Valid(r.next)
  {
    var text := Trim(line);
    if text == ExitLine then
      if s.device.Some? && s.isConnected then
        ConsoleStep(s.(disconnectRequests := s.disconnectRequests + [s.device.value]), disconnectOk)
      else
        ConsoleStep(s, true)
    else
      var out := Truncate(text);
      ConsoleStep(if CanWrite(s) then Write(s, out) else s, false)
  }

  /** What the console forwards is a prefix of the trimmed line, at most 20 units long. */
  lemma ConsoleForwardsPrefix(s: State, line: JsString, disconnectOk: bool)
    requires CanWrite(s) && Trim(line) != ExitLine
    ensures var w := Last(ConsoleLine(s, line, disconnectOk).next.txWrites);
      && |w.text| <= MaxWriteUnits
      && w.text == Trim(line)[..|w.text|]
      && (|Trim(line)| <= MaxWriteUnits ==> w.text == Trim(line))
  {
  }

  function Last<T>(xs: seq<T>): T
    requires |xs| > 0
  {
    xs[|xs| - 1]
  }

  /**
   * Once the disconnect handler has run, neither the interval listener nor
   * the console writes anything, while the listener still re-arms the sampler.
   */
  lemma DisconnectSilencesWrites(s: State, seconds: Number, line: JsString, disconnectOk: bool)
    requires TimersValid(s)
    ensures var d := DeviceDisconnected(s);
      && IntervalChanged(d, seconds).txWrites == s.txWrites
      && IntervalChanged(d, seconds).timers == map[s.nextTimerId := ListenerPeriod(seconds)]
      && ConsoleLine(d, line, disconnectOk).next.txWrites == s.txWrites
  {
  }

  // ---------------------------------------------------------------------
  // One iteration of the connection loop

  /** The awaited steps of the connection pipeline, in order. */
  datatype Stage =
    | Discover | Connect | Gatt | UartService | TxCharacteristic
    | RxCharacteristic | EssService | TempCharacteristic | RxNotifications | TempNotifications

  function StageOrder(st: Stage): nat {
    match st
    case Discover => 0
    case Connect => 1
    case Gatt => 2
    case UartService => 3
    case TxCharacteristic => 4
    case RxCharacteristic => 5
    case EssService => 6
    case TempCharacteristic => 7
    case RxNotifications => 8
    case TempNotifications => 9
  }

  /**
   * What the initial sync met: the `get` of `state/Interval` (None when it
   * failed, else the value after `parseFloat`), whether the first write
   * succeeded, and whether the fallback write succeeded.
   */
  datatype InitialSync = InitialSync(fetched: Option<Number>, firstWriteOk: bool, fallbackWriteOk: bool)

  /** The outcome of a connection attempt: the step that threw, or all steps done. */
  datatype Attempt = FailsAt(stage: Stage) | Completes(sync: InitialSync)

  /** Whether an awaited call returned or threw, and the state it left. */
  datatype Outcome = Returned(state: State) | Threw(state: State)

  /** The initial sync ends normally: its first write or its fallback write went through. */
  predicate SyncSucceeds(sync: InitialSync) {
    (sync.fetched.Some? && sync.firstWriteOk) || sync.fallbackWriteOk
  }

  predicate Succeeds(attempt: Attempt) {
    attempt.Completes? && SyncSucceeds(attempt.sync)
  }

  /** The period the initial sync arms the sampler with when it ends normally. */
  function SyncPeriod(sync: InitialSync): Decimal {
    if sync.fetched.Some? && sync.firstWriteOk then InitialPeriod(sync.fetched.value) else MinPeriod
  }

  /** The catch block of `sendInitialInterval`: send the literal fallback, then arm at 1000 ms. */
  function Fallback(s: State, writeOk: bool): (o: Outcome)
    requires s.txChar.Some? && TimersValid(s)
    ensures o.Returned? <==> writeOk
    ensures o.state.txWrites == s.txWrites + [TxWrite(s.txChar.value, FallbackCommand())]
    ensures o.Returned? ==> o.state.timers == map[s.nextTimerId := MinPeriod] && o.state.interval == MinPeriod
    ensures o.state.isConnected == s.isConnected && o.state.txChar == s.txChar && o.state.device == s.device
    ensures o.state.nextObjectId == s.nextObjectId && o.state.disconnectRequests == s.disconnectRequests
    ensures o.Threw? ==> o.state.timers == s.timers
    ensures o.Threw? ==> o.state == s.(txWrites := o.state.txWrites)
    ensures o.Returned? ==> o.state == s.(interval := MinPeriod, currentIntervalID := Some(s.nextTimerId),
                                          timers := map[s.nextTimerId := MinPeriod],
                                          nextTimerId := s.nextTimerId + 1, txWrites := o.state.txWrites)
    ensures Valid(s) ==> Valid(o.state)
  {
    var sent := Write(s, FallbackCommand());
    if writeOk then Returned(StartSensorUpdates(sent.(interval := MinPeriod), MinPeriod))
    else Threw(sent)
  }

  /**
   * The writes the initial sync issues, all through `tx`: the fetched
   * interval's command when the fetch worked, then the fallback command when
   * the fetch or that write failed.
   */
  function SyncWrites(tx: Handle, sync: InitialSync): (ws: seq<TxWrite>)
    ensures 1 <= |ws| <= 2
    ensures forall i :: 0 <= i < |ws| ==> ws[i].target == tx
    ensures !(sync.fetched.Some? && sync.firstWriteOk) ==> ws[|ws| - 1].text == FallbackCommand()
    ensures sync.fetched.Some? ==> ws[0].text == IntervalCommand(InitialPeriod(sync.fetched.value))
    ensures |ws| == 1 <==> (sync.fetched.Some? && sync.firstWriteOk) || sync.fetched.None?
  {
    var fallback := [TxWrite(tx, FallbackCommand())];
    match sync.fetched
    case Some(seconds) =>
      [TxWrite(tx, IntervalCommand(InitialPeriod(seconds)))] + (if sync.firstWriteOk then [] else fallback)
    case None => fallback
  }

  /**
   * `sendInitialInterval`: send the fetched interval and arm the sampler
   * with it; if the fetch or that write throws, fall back. Only a failing
   * fallback write escapes to the caller.
   */
  function SendInitialInterval(s: State, sync: InitialSync): (o: Outcome)
    requires s.txChar.Some? && TimersValid(s)
    ensures o.Returned? <==> SyncSucceeds(sync)
    ensures o.Returned? ==> o.state.timers == map[s.nextTimerId := SyncPeriod(sync)]
    ensures o.Returned? ==> o.state.interval == SyncPeriod(sync)
    ensures o.state.isConnected == s.isConnected && o.state.txChar == s.txChar && o.state.device == s.device
    ensures o.state.nextObjectId == s.nextObjectId && o.state.disconnectRequests == s.disconnectRequests
    ensures o.state.txWrites == s.txWrites + SyncWrites(s.txChar.value, sync)
    ensures o.Threw? ==> o.state.timers == s.timers
    ensures o.Threw? ==> o.state == s.(txWrites := o.state.txWrites)
    ensures o.Returned? ==> o.state == s.(interval := SyncPeriod(sync), currentIntervalID := Some(s.nextTimerId),
                                          timers := map[s.nextTimerId := SyncPeriod(sync)],
                                          nextTimerId := s.nextTimerId + 1, txWrites := o.state.txWrites)
    ensures Valid(s) ==> Valid(o.state)
  {
    match sync.fetched
    case Some(seconds) =>
      var ms := InitialPeriod(seconds);
      var sent := Write(s, IntervalCommand(ms));
      if sync.firstWriteOk then Returned(StartSensorUpdates(sent.(interval := ms), ms))
      else Fallback(sent, sync.fallbackWriteOk)
    case None =>
      Fallback(s, sync.fallbackWriteOk)
  }

  /**
   * The body of `if (!isConnected) { ... }`: discover, connect (the flag is
   * set as soon as the link is up, before any handle is resolved), resolve the
   * services and characteristics, subscribe, then run the initial sync.
   */
  function ConnectAttempt(s: State, attempt: Attempt): (o: Outcome)
    requires TimersValid(s)
    ensures o.Returned? <==> Succeeds(attempt)
    ensures o.state.isConnected <==> s.isConnected || (attempt != FailsAt(Discover) && attempt != FailsAt(Connect))
    ensures o.state.device == if attempt == FailsAt(Discover) then s.device else Some(Device(s.nextObjectId))
    ensures o.state.txChar ==
      if attempt.FailsAt? && StageOrder(attempt.stage) <= StageOrder(TxCharacteristic) then s.txChar
      else Some(Handle(s.nextObjectId + 1))
    ensures o.Threw? ==> o.state.timers == s.timers
    ensures o.state.disconnectRequests == s.disconnectRequests
    ensures o.state.txWrites ==
      if attempt.Completes? then s.txWrites + SyncWrites(Handle(s.nextObjectId + 1), attempt.sync)
      else s.txWrites
    ensures o.state.nextObjectId == s.nextObjectId +
      if attempt == FailsAt(Discover) then 0
      else if attempt.FailsAt? && StageOrder(attempt.stage) <= StageOrder(TxCharacteristic) then 1
      else 2
    ensures o.Threw? ==> o.state == s.(isConnected := o.state.isConnected, txChar := o.state.txChar,
                                       device := o.state.device, nextObjectId := o.state.nextObjectId,
                                       txWrites := o.state.txWrites)
    ensures o.Returned? ==> o.state == Resolved(s).(interval := SyncPeriod(attempt.sync),
                                                    currentIntervalID := Some(s.nextTimerId),
                                                    timers := map[s.nextTimerId := SyncPeriod(attempt.sync)],
                                                    nextTimerId := s.nextTimerId + 1, txWrites := o.state.txWrites)
  {
    match attempt
    case FailsAt(stage) => Threw(StepsBefore(s, stage))
    case Completes(sync) => SendInitialInterval(Resolved(s), sync)
  }

  /**
   * The state the steps before `stage` leave: discovery allocates the device,
   * connecting raises the flag, and the TX step allocates the handle.
   */
  function StepsBefore(s: State, stage: Stage): State {
    if stage == Discover then s
    else
      var found := s.(device := Some(Device(s.nextObjectId)), nextObjectId := s.nextObjectId + 1);
      if stage == Connect then found
      else if StageOrder(stage) <= StageOrder(TxCharacteristic) then found.(isConnected := true)
      else Resolved(s)
  }

  /** The state once the device is found, linked and its TX handle resolved. */
  function Resolved(s: State): State {
    s.(device := Some(Device(s.nextObjectId)), isConnected := true,
       txChar := Some(Handle(s.nextObjectId + 1)), nextObjectId := s.nextObjectId + 2)
  }

  /** An attempt that gets through every connection step goes on to the initial sync. */
  lemma CompletedAttempt(s: State, attempt: Attempt)
    requires TimersValid(s) && attempt.Completes?
    ensures Resolved(s).txChar.Some? && TimersValid(Resolved(s))
    ensures ConnectAttempt(s, attempt) == SendInitialInterval(Resolved(s), attempt.sync)
  {
  }

  /** The loop's catch block: drop the flag, ask the last known device to disconnect. */
  function Catch(s: State): (r: State)
    ensures !r.isConnected && r.txChar == s.txChar
    ensures r.disconnectRequests == if s.device.Some? then s.disconnectRequests + [s.device.value]
                                    else s.disconnectRequests
    ensures r == s.(isConnected := false, disconnectRequests := r.disconnectRequests)
  {
    s.(isConnected := false,
       disconnectRequests := if s.device.Some? then s.disconnectRequests + [s.device.value] else s.disconnectRequests)
  }

  /** The pause after a normal pass, and the delay before retrying when not connected. */
  const PauseMillis: nat := 100
  const RetryDelayMillis: nat := 5000

  /** One pass of the loop, and the waits (in ms) it ends with. */
  datatype Step = Step(next: State, waits: seq<nat>)

  /**
   * One iteration of `while (true)` in `connectToDevice`: the try block (a
   * connection attempt when not connected, then the 100 ms pause, during
   * which the device may drop the link and fire the disconnect handler), or
   * the catch block; then a 5000 ms wait whenever the flag is down.
   */
  function Iteration(s: State, attempt: Attempt, dropsDuringPause: bool): (r: Step)
    requires Valid(s)
    ensures Valid(r.next)
  {
    var tried := if s.isConnected then Returned(s) else ConnectAttempt(s, attempt);
    var afterTry := match tried
      case Returned(t) => Step(if dropsDuringPause then DeviceDisconnected(t) else t, [PauseMillis])
      case Threw(t) => Step(Catch(t), []);
    if afterTry.next.isConnected then afterTry
    else Step(afterTry.next, afterTry.waits + [RetryDelayMillis])
  }

  /**
   * A connected iteration does nothing but pause 100 ms; if the device drops
   * the link during the pause, the handler clears both the flag and the
   * handle and the loop then waits 5000 ms.
   */
  lemma ConnectedIteration(s: State, attempt: Attempt, dropsDuringPause: bool)
    requires Valid(s) && s.isConnected
    ensures var r := Iteration(s, attempt, dropsDuringPause);
      if dropsDuringPause then
        r.next == DeviceDisconnected(s) && r.waits == [PauseMillis, RetryDelayMillis]
      else
        r.next == s && r.waits == [PauseMillis]
  {
  }

  /**
   * A failed attempt leaves the flag down and is followed by exactly the
   * 5000 ms retry delay; when it fails after the TX handle was resolved, that
   * handle is left in place.
   */
  lemma FailedIteration(s: State, attempt: Attempt, dropsDuringPause: bool)
    requires Valid(s) && !s.isConnected && !Succeeds(attempt)
    ensures var r := Iteration(s, attempt, dropsDuringPause);
      && !r.next.isConnected
      && r.waits == [RetryDelayMillis]
      && r.next.timers == s.timers
      && r.next.interval == s.interval
      && (attempt.FailsAt? && StageOrder(attempt.stage) <= StageOrder(TxCharacteristic) ==> r.next.txChar == s.txChar)
      && (!(attempt.FailsAt? && StageOrder(attempt.stage) <= StageOrder(TxCharacteristic)) ==>
            r.next.txChar == Some(Handle(s.nextObjectId + 1)))
  {
    if attempt.Completes? {
      CompletedAttempt(s, attempt);
    }
  }

  /**
   * A successful attempt connects to a newly found device through a newly
   * resolved handle, arms exactly one sampling timer at the synced period,
   * and pauses 100 ms without the retry delay.
   */
  lemma SuccessfulIteration(s: State, attempt: Attempt)
    requires Valid(s) && !s.isConnected && Succeeds(attempt)
    ensures var r := Iteration(s, attempt, false);
      && r.next.isConnected
      && r.next.device == Some(Device(s.nextObjectId))
      && r.next.txChar == Some(Handle(s.nextObjectId + 1))
      && r.next.interval == SyncPeriod(attempt.sync)
      && r.next.timers == map[s.nextTimerId := SyncPeriod(attempt.sync)]
      && r.waits == [PauseMillis]
  {
    CompletedAttempt(s, attempt);
    var o := SendInitialInterval(Resolved(s), attempt.sync);
    assert o.Returned? && o.state.isConnected;
  }

  /**
   * The loop only writes during the initial sync of an attempt that started
   * disconnected and got through every connection step, and only through the
   * TX handle that attempt resolved; the writes already issued are kept.
   */
  lemma IterationWritesOnlyThroughNewHandle(s: State, attempt: Attempt, dropsDuringPause: bool)
    requires Valid(s)
    ensures Iteration(s, attempt, dropsDuringPause).next.txWrites ==
      if !s.isConnected && attempt.Completes?
      then s.txWrites + SyncWrites(Handle(s.nextObjectId + 1), attempt.sync)
      else s.txWrites
  {
    if !s.isConnected {
      var o := ConnectAttempt(s, attempt);
      assert o.state.txWrites == Catch(o.state).txWrites == DeviceDisconnected(o.state).txWrites;
    }
  }

  /**
   * After a failure past the TX step the stale handle stays in `txChar`, yet
   * neither the listener nor the console writes through it, because the
   * flag is down.
   */
  lemma StaleHandleIsNotUsed(s: State, stage: Stage, seconds: Number, line: JsString, disconnectOk: bool)
    requires Valid(s) && !s.isConnected && StageOrder(stage) > StageOrder(TxCharacteristic)
    ensures var r := Iteration(s, FailsAt(stage), false).next;
      && r.txChar.Some?
      && IntervalChanged(r, seconds).txWrites == r.txWrites
      && ConsoleLine(r, line, disconnectOk).next.txWrites == r.txWrites
  {
    FailedIteration(s, FailsAt(stage), false);
  }

  // ---------------------------------------------------------------------
  // Successive iterations

  /** One pass of the loop: the attempt's outcome and whether the link drops in the pause. */
  datatype Tick = Tick(attempt: Attempt, dropsDuringPause: bool)

  /** The state and the waits after running the loop over `ticks`, in order. */
  function Run(s: State, ticks: seq<Tick>): (r: Step)
    requires Valid(s)
    ensures Valid(r.next)
  {
    if ticks == [] then Step(s, [])
    else
      var before := Run(s, ticks[..|ticks| - 1]);
      var t := ticks[|ticks| - 1];
      var last := Iteration(before.next, t.attempt, t.dropsDuringPause);
      Step(last.next, before.waits + last.waits)
  }

  /**
   * A run of failed attempts from a disconnected state never connects,
   * keeps the sampling timer, and waits exactly 5000 ms before each retry.
   */
  lemma {:induction false} RunOfFailures(s: State, ticks: seq<Tick>)
    requires Valid(s) && !s.isConnected
    requires forall i :: 0 <= i < |ticks| ==> !Succeeds(ticks[i].attempt)
    ensures var r := Run(s, ticks);
      && !r.next.isConnected
      && r.waits == seq(|ticks|, _ => RetryDelayMillis)
      && r.next.timers == s.timers
  {
    if ticks != [] {
      var prefix := ticks[..|ticks| - 1];
      RunOfFailures(s, prefix);
      var before := Run(s, prefix);
      var t := ticks[|ticks| - 1];
      FailedIteration(before.next, t.attempt, t.dropsDuringPause);
    }
  }

  /**
   * Failed attempts followed by a successful one: a 5000 ms wait after each
   * failure, then the link is up, the sampler runs at the synced period and
   * the loop pauses 100 ms.
   */
  lemma RetryThenConnect(s: State, failures: seq<Tick>, success: Attempt)
    requires Valid(s) && !s.isConnected
    requires forall i :: 0 <= i < |failures| ==> !Succeeds(failures[i].attempt)
    requires Succeeds(success)
    ensures var r := Run(s, failures + [Tick(success, false)]);
      && r.next.isConnected
      && r.next.interval == SyncPeriod(success.sync)
      && |r.next.timers| == 1
      && r.next.timers.Values == {SyncPeriod(success.sync)}
      && r.waits == seq(|failures|, _ => RetryDelayMillis) + [PauseMillis]
  {
    var ticks := failures + [Tick(success, false)];
    assert ticks[..|ticks| - 1] == failures;
    RunOfFailures(s, failures);
    SuccessfulIteration(Run(s, failures).next, success);
  }
}
