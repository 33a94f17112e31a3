/**
 * The script itself: its module-level variables as the fields of one
 * object, and each handler and loop of the script as a method that updates
 * them in place.  Each handler method is proved to perform exactly its
 * Session transition, so the lemmas there hold of it: StartSensorUpdates,
 * StartApp, SendInitialInterval and ConnectAttempt share their names;
 * WriteTx performs Session.Write, OnIntervalChanged Session.IntervalChanged,
 * OnDeviceDisconnect Session.DeviceDisconnected, OnConsoleLine
 * Session.ConsoleLine, Iterate Session.Iteration and ConnectToDevice
 * Session.Run.  SetInterval and ClearInterval stand for the runtime's own
 * timer calls and have no Session counterpart.
 */
module BridgeScript {
  import opened Wrappers
  import opened JsText
  import opened JsNumber
  import opened FrameCodec
  import opened IntervalPolicy
  import opened Session

  class Bridge {
    // The script's own variables.
    var interval: Decimal
    var currentIntervalID: Option<nat>
    var isConnected: bool
    var txChar: Option<Handle>
    var device: Option<Device>

    // The runtime and the transport, as far as the script acts on them.
    var timers: map<nat, Decimal>
    var nextTimerId: nat
    var nextObjectId: nat
    var txWrites: seq<TxWrite>
    var disconnectRequests: seq<Device>

    /** All of the above as one value. */
    function Snapshot(): State
      reads this
    {
      State(interval, currentIntervalID, timers, nextTimerId, isConnected, txChar, device,
            nextObjectId, txWrites, disconnectRequests)
    }

    predicate Valid()
      reads this
    {
      Session.Valid(Snapshot())
    }

    /** The variables as the script declares them, before anything runs. */
    constructor()
      ensures Valid() && Snapshot() == Initial
    {
      interval := MinPeriod;
      currentIntervalID := None;
      isConnected := false;
      txChar := None;
      device := None;
      timers := map[];
      nextTimerId := 0;
      nextObjectId := 0;
      txWrites := [];
      disconnectRequests := [];
    }

    /** `setInterval(updateSensorReadings, period)`: a new live timer. */
    method SetInterval(period: Decimal) returns (id: nat)
      modifies this
      ensures id == old(nextTimerId)
      ensures Snapshot() == old(Snapshot()).(timers := old(timers)[id := period], nextTimerId := id + 1)
    {
      id := nextTimerId;
      timers := timers[id := period];
      nextTimerId := nextTimerId + 1;
    }

    /** `clearInterval(id)`: the timer stops. */
    method ClearInterval(id: nat)
      modifies this
      ensures Snapshot() == old(Snapshot()).(timers := old(timers) - {id})
    {
      timers := timers - {id};
    }

    /** `startSensorUpdates(period)`. */
    method StartSensorUpdates(period: Decimal)
      requires Valid()
      modifies this
      ensures Valid()
      ensures Snapshot() == Session.StartSensorUpdates(old(Snapshot()), period)
      ensures timers == map[old(nextTimerId) := period]
    {
      if currentIntervalID == None {
        var id := SetInterval(period);
        currentIntervalID := Some(id);
      } else {
        ClearInterval(currentIntervalID.value);
        var id := SetInterval(period);
        currentIntervalID := Some(id);
      }
    }

    /** `startApp()` once the sign-in has succeeded or failed. */
    method StartApp(signedIn: bool)
      requires Valid()
      modifies this
      ensures Valid()
      ensures Snapshot() == Session.StartApp(old(Snapshot()), signedIn)
    {
      if signedIn {
        StartSensorUpdates(interval);
      }
    }

    /** `txChar.writeValue(Buffer.from(text))`. */
    method WriteTx(text: JsString)
      requires txChar.Some?
      modifies this
      ensures Snapshot() == Session.Write(old(Snapshot()), text)
    {
      txWrites := txWrites + [TxWrite(txChar.value, text)];
    }

    /** The `state/Interval` change handler. */
    method OnIntervalChanged(seconds: Number)
      requires Valid()
      modifies this
      ensures Valid()
      ensures Snapshot() == Session.IntervalChanged(old(Snapshot()), seconds)
    {
      var ms := ListenerPeriod(seconds);
      if txChar.Some? && isConnected {
        WriteTx(IntervalCommand(ms));
      }
      interval := ms;
      StartSensorUpdates(interval);
    }

    /** The device's `disconnect` handler. */
    method OnDeviceDisconnect()
      modifies this
      ensures Snapshot() == Session.DeviceDisconnected(old(Snapshot()))
    {
      isConnected := false;
      txChar := None;
    }

    /**
     * The console's `data` handler; `exits` is true when the process ends.
     * `disconnectOk` is whether `device.disconnect()` resolves, when called.
     */
    method OnConsoleLine(line: JsString, disconnectOk: bool) returns (exits: bool)
      modifies this
      ensures Session.ConsoleLine(old(Snapshot()), line, disconnectOk) == ConsoleStep(Snapshot(), exits)
    {
      var inStr := Trim(line);
      if inStr == ExitLine {
        if device.Some? && isConnected {
          disconnectRequests := disconnectRequests + [device.value];
          if !disconnectOk {
            // the rejection escapes the handler before destroy() and exit()
            return false;
          }
        }
        return true;
      }
      inStr := Truncate(inStr);
      if txChar.Some? && isConnected {
        WriteTx(inStr);
      }
      exits := false;
    }

    /** `sendInitialInterval()`; `threw` is true when an error escapes it. */
    method SendInitialInterval(sync: InitialSync) returns (threw: bool)
      requires Valid() && txChar.Some?
      modifies this
      ensures Valid()
      ensures Session.SendInitialInterval(old(Snapshot()), sync) ==
        if threw then Threw(Snapshot()) else Returned(Snapshot())
    {
      if sync.fetched.Some? {
        var ms := InitialPeriod(sync.fetched.value);
        WriteTx(IntervalCommand(ms));
        if sync.firstWriteOk {
          interval := ms;
          StartSensorUpdates(interval);
          return false;
        }
      }
      // the catch block
      WriteTx(FallbackCommand());
      if !sync.fallbackWriteOk {
        return true;
      }
      interval := MinPeriod;
      StartSensorUpdates(interval);
      threw := false;
    }

    /** The body of `if (!isConnected) { ... }` in `connectToDevice`. */
    method ConnectAttempt(attempt: Attempt) returns (threw: bool)
      requires Valid()
      modifies this
      ensures Valid()
      ensures Session.ConnectAttempt(old(Snapshot()), attempt) ==
        if threw then Threw(Snapshot()) else Returned(Snapshot())
    {
      if attempt == FailsAt(Discover) {
        return true;
      }
      device := Some(Device(nextObjectId));
      nextObjectId := nextObjectId + 1;
      if attempt == FailsAt(Connect) {
        return true;
      }
      isConnected := true;
      if attempt == FailsAt(Gatt) || attempt == FailsAt(UartService) || attempt == FailsAt(TxCharacteristic) {
        return true;
      }
      txChar := Some(Handle(nextObjectId));
      nextObjectId := nextObjectId + 1;
      if attempt.FailsAt? {
        // the RX or temperature characteristic, the sensing service or a subscription
        return true;
      }
      threw := SendInitialInterval(attempt.sync);
    }

    /** One iteration of `while (true)` in `connectToDevice`, and the waits it ends with. */
    method Iterate(attempt: Attempt, dropsDuringPause: bool) returns (waits: seq<nat>)
      requires Valid()
      modifies this
      ensures Valid()
      ensures Session.Iteration(old(Snapshot()), attempt, dropsDuringPause) == Step(Snapshot(), waits)
    {
      var threw := false;
      if !isConnected {
        threw := ConnectAttempt(attempt);
      }
      if threw {
        isConnected := false;
        if device.Some? {
          disconnectRequests := disconnectRequests + [device.value];
        }
        waits := [];
      } else {
        waits := [PauseMillis];
        if dropsDuringPause {
          OnDeviceDisconnect();
        }
      }
      if !isConnected {
        waits := waits + [RetryDelayMillis];
      }
    }

    /**
     * `connectToDevice` over the first `|ticks|` iterations of its endless
     * loop, one tick per iteration.
     */
    method ConnectToDevice(ticks: seq<Tick>) returns (waits: seq<nat>)
      requires Valid()
      modifies this
      ensures Valid()
      ensures Session.Run(old(Snapshot()), ticks) == Step(Snapshot(), waits)
    {
      ghost var start := Snapshot();
      waits := [];
      for i := 0 to |ticks|
        invariant Valid()
        invariant Session.Run(start, ticks[..i]) == Step(Snapshot(), waits)
      {
        var w := Iterate(ticks[i].attempt, ticks[i].dropsDuringPause);
        waits := waits + w;
        assert ticks[..i + 1][..i] == ticks[..i];
      }
      assert ticks[..|ticks|] == ticks;
    }
  }
}
