# BLE–cloud bridge session model (nodeble-lab3)

This project models the core of `nodeble-lab3.js`, a Node.js bridge on a
Raspberry Pi. The bridge keeps one Bluetooth Low Energy peripheral, an
Arduino reached through the Nordic UART service, in step with a Firebase
Realtime Database. The model covers:

- the decoding of the Arduino's 2-byte temperature notifications;
- the two ways a cloud `Interval` value (seconds) becomes a sampling period
  in milliseconds and an `interval:<n>` command;
- the single repeating sampling timer;
- the session variables `isConnected`, `txChar` and `device`, with every
  handler and loop iteration that changes them;
- the console's line handler.

Modules, one per file:

- `Wrappers` (`wrappers.dfy`): the `Option` datatype.
- `JsText` (`js_text.dfy`): JavaScript strings as UTF-16 code units, with
  `trim` and the 20-unit truncation.
- `JsNumber` (`js_number.dfy`): JavaScript numbers as `parseFloat` leaves
  them. A number is NaN, ±Infinity or an exact decimal. The module gives
  JavaScript's comparisons, truthiness and `1000 *` on them, the plain text
  `${x}` prints for a finite value, and a parser that reads that text back.
- `FrameCodec` (`frame_codec.dfy`): the temperature frame (Environmental
  Sensing Service, Temperature characteristic 0x2A6E, 0.01 °C units, decoded
  as unsigned as the code does) and the interval command text.
- `IntervalPolicy` (`interval_policy.dfy`): the listener's clamp (as written
  and corrected) and the initial sync's clamp.
- `Session` (`session.dfy`): the script's whole mutable state as a value and
  each transition as a function, with the lemmas about them.
- `BridgeScript` (`bridge_script.dfy`): class `Bridge`. Its fields are the
  script's module variables plus the runtime's live timers and the
  transport's write and disconnect logs. Its methods update those fields in
  place. Each handler method is proved to perform exactly its `Session`
  transition, so the `Session` lemmas hold of it: `StartSensorUpdates`,
  `StartApp`, `SendInitialInterval` and `ConnectAttempt` share their names;
  `WriteTx` performs `Session.Write`, `OnIntervalChanged` performs
  `Session.IntervalChanged`, `OnDeviceDisconnect` performs
  `Session.DeviceDisconnected`, `OnConsoleLine` performs `Session.ConsoleLine`,
  `Iterate` performs `Session.Iteration` and `ConnectToDevice` performs
  `Session.Run`. `SetInterval` and `ClearInterval` stand for the runtime's
  own timer calls and have no `Session` counterpart.

Transport and cloud calls are not modelled. Their outcomes are inputs:

- an `Attempt` is either the pipeline step that threw (`FailsAt(stage)`) or
  `Completes(sync)`;
- an `InitialSync` says whether the fetch and each write worked;
- the parsed `Interval` value is a `Number`;
- a `Tick` also says whether the device drops the link during the loop's
  100 ms pause.

Where the code does something other than its own comments, its own
structure or the Nordic UART service's 20-byte write limit suggest, the
model follows the code, with the one exception the first bullet names:

- The comments at lines 97 and 115 bound the listener's interval to 1–10
  seconds, but its two checks (lines 116-117) do not catch NaN. Here only
  `IntervalPolicy.ListenerPeriodAsWritten` follows the code; the session
  model (`Session.IntervalChanged` and `BridgeScript.Bridge.OnIntervalChanged`)
  uses the corrected period. See Findings and Left out.
- The comment at lines 187-189 says the initial sync sends the interval to
  the peripheral. Its normal path (line 203) sends `interval:<ms>`, but its
  error path (line 214) sends the literal `interval:1` while arming the local
  timer at 1000 ms (line 217).
- The comment at line 334 cuts console input for the 20-byte limit, but
  `slice` counts UTF-16 code units. `Buffer.from` then encodes the text as
  UTF-8, which can be longer than 20 bytes.
- Interval commands (lines 122 and 203) are never cut to that limit. A
  fractional interval inside the range can give a command longer than 20
  units.
- The comment at line 63 has `isConnected` track the BLE connection, and the
  one at line 281 pairs losing it with a retry. Yet `isConnected` becomes
  true at line 240, as soon as the link is up and before any handle is
  resolved. The loop's catch block (line 292) clears only `isConnected`, so
  `txChar` can still hold the previous handle. Only the device's disconnect
  handler (lines 284-285) clears both.
- Both normal paths of the initial sync arm the sampler (lines 210-211 and
  217-218). When the fallback write throws (line 215), the error escapes
  and the timer is not re-armed: whichever timer was live before stays
  live.
- After `exit` the handler ends the process (lines 331-332). When the
  `device.disconnect()` of line 329 rejects, nothing catches it, so the
  handler stops before `destroy()` and `process.exit()`.

## Model

| member | source | states |
|---|---|---|
| `JsText.TrimBounds` | nodeble-lab3.js:326 | `trim` keeps a slice: everything outside it is JavaScript white space, and it neither starts nor ends with white space |
| `JsText.Trim` | nodeble-lab3.js:326 | `trim` is empty exactly for an all-white-space line, and otherwise neither starts nor ends with white space |
| `JsText.TrimIdempotent` | nodeble-lab3.js:326 | trimming twice is trimming once |
| `JsText.Truncate` | nodeble-lab3.js:335 | the console text is the prefix of the trimmed line of length min(length, 20) |
| `JsText.TruncateIdempotent` | nodeble-lab3.js:335 | truncating twice is truncating once |
| `JsNumber.Times1000` | nodeble-lab3.js:113 | `1000 * v` is NaN exactly for NaN, finite exactly for a finite v, and then exactly 1000 times v |
| `JsNumber.LessThan` | nodeble-lab3.js:116 | `v < c` is false for NaN and never holds together with `v > c` |
| `JsNumber.GreaterThan` | nodeble-lab3.js:117 | `v > c` is false for NaN and for v equal to c |
| `JsNumber.Truthy` | nodeble-lab3.js:195 | the `\|\| 1` test: a number is falsy exactly when it is NaN or zero |
| `JsNumber.Normalize` | nodeble-lab3.js:122 | the printed form drops trailing fraction zeros and keeps the value |
| `JsNumber.DecimalText` | nodeble-lab3.js:122 | `${v}` of a finite value is non-empty and starts with a minus sign exactly when the value is negative, otherwise with a digit |
| `JsNumber.DecimalTextRoundTrip` | nodeble-lab3.js:122 | the text of a finite value parses back to that value, in normalized form |
| `JsNumber.UnsignedTextRoundTrip` | nodeble-lab3.js:203 | an unsigned numeral with `scale` fraction digits parses back to the decimal it was printed from |
| `FrameCodec.RawTemperature` | nodeble-lab3.js:270 | `(b1 << 8) \| b0` on 32-bit integers equals b0 + 256·b1, at most 65535 |
| `FrameCodec.DecodeTemperature` | nodeble-lab3.js:265-271 | a buffer is rejected exactly when its length is not 2; otherwise raw = b0 + 256·b1 and temperature = raw / 100 |
| `FrameCodec.TemperatureUpdate` | nodeble-lab3.js:264-275 | a cloud update is issued exactly for 2-byte buffers; its temperature is (b0 + 256·b1) / 100 °C, within [0, 655.35] |
| `FrameCodec.EncodeDecodedFrame` | nodeble-lab3.js:270 | every 2-byte frame is the little-endian encoding of the word it decodes to |
| `FrameCodec.DecodeEncodedWord` | nodeble-lab3.js:270-271 | decoding the encoding of any 16-bit word gives that word and word / 100 |
| `FrameCodec.IntervalCommand` | nodeble-lab3.js:122 | `interval:${v}` starts with the prefix `interval:`, followed by a minus sign exactly when the value is negative |
| `FrameCodec.FallbackCommand` | nodeble-lab3.js:214 | the literal `interval:1` is the command format applied to the number 1 |
| `FrameCodec.IntervalCommandRoundTrip` | nodeble-lab3.js:122 | `interval:<ms>` reads back to the value ms |
| `FrameCodec.FallbackCommandMismatch` | nodeble-lab3.js:214 | the fallback command carries 1, while the normal command for the same one-second period carries 1000 |
| `FrameCodec.WholeIntervalCommandFits` | nodeble-lab3.js:122 | a whole number of milliseconds up to 10000 gives a command of at most 14 units |
| `FrameCodec.FractionalIntervalCommandOverflows` | nodeble-lab3.js:122 | a period inside [1000, 10000] with a long fraction gives a command longer than 20 units |
| `IntervalPolicy.ListenerPeriodAsWritten` | nodeble-lab3.js:113-117 | the code as written: the result is NaN exactly when the input is NaN; every other input gives a finite period in [1000, 10000] |
| `IntervalPolicy.ListenerAsWrittenPassesNaN` | nodeble-lab3.js:107-117 | as written, NaN passes both bound checks unchanged |
| `IntervalPolicy.ListenerPeriod` | nodeble-lab3.js:113-117 | corrected listener: the period lies in [1000, 10000]; it is 1000·v when 1 ≤ v ≤ 10; it agrees with the code for every input but NaN; NaN gives 1000 |
| `IntervalPolicy.InitialSeconds` | nodeble-lab3.js:195-199 | NaN or 0 falls back to 1 s; the result lies in [1, 10]; a value already in [1, 10] is kept; any value below 1 (−∞ included) gives 1; any value above 10 (+∞ included) gives 10 |
| `IntervalPolicy.InitialPeriod` | nodeble-lab3.js:202 | the initial period is 1000 times the clamped seconds, inside [1000, 10000], and 1000 when the input is NaN or 0 |
| `IntervalPolicy.PathsAgree` | nodeble-lab3.js:195-202 | the initial sync and the corrected listener give the same period for every input |
| `Session.InitialValid` | nodeble-lab3.js:22-24 | the starting state (1000 ms, no timer, not connected, no handle) satisfies the session invariant |
| `Session.StartSensorUpdates` | nodeble-lab3.js:162-169 | afterwards exactly one timer is live; it is a new one running at the given period; the previous one is cleared; nothing else changes |
| `Session.RearmAll` | nodeble-lab3.js:162-169 | repeated re-arming keeps the single-timer invariant and uses one new timer id per call |
| `Session.RearmRepeatedly` | nodeble-lab3.js:162-169 | after any number of re-arms in a row, only the last timer is live, at the last period |
| `Session.StartApp` | nodeble-lab3.js:175-185 | after sign-in the held timer is a new one running at the current interval, the only live one, and nothing else changes; a failed sign-in changes nothing |
| `Session.CanWrite` | nodeble-lab3.js:121 | a write goes ahead only with a handle, and never while disconnected |
| `Session.Write` | nodeble-lab3.js:124 | a write appends exactly one entry, the text through the current handle, to the write log and changes nothing else |
| `Session.IntervalChanged` | nodeble-lab3.js:102-135 | the stored period is the bounded `ListenerPeriod` of the input, in [1000, 10000]; it is written exactly when `txChar && isConnected`, as `interval:<period>` through the current handle; the timer is re-armed at that period whether or not the write happened; flags, handle, device and disconnect log are unchanged |
| `Session.IntervalChangedInRange` | nodeble-lab3.js:113-117 | for 1 ≤ v ≤ 10 the stored period is 1000·v |
| `Session.DeviceDisconnected` | nodeble-lab3.js:282-286 | the disconnect handler clears the flag and the handle together and changes nothing else, so no write can follow |
| `Session.ConsoleLine` | nodeble-lab3.js:325-344 | on the trimmed line `exit` a connected device is asked to disconnect and nothing is written; the process exits exactly then, unless that disconnect rejects; any other line writes its truncated trimmed text exactly when `txChar && isConnected`; only the write and disconnect logs change |
| `Session.ConsoleForwardsPrefix` | nodeble-lab3.js:335-338 | the forwarded text is a prefix of the trimmed line, at most 20 units, and the whole line when that is short enough |
| `Session.DisconnectSilencesWrites` | nodeble-lab3.js:121 | after the disconnect handler, neither the listener nor the console writes, and the listener still re-arms the timer |
| `Session.SyncWrites` | nodeble-lab3.js:203-215 | the initial sync writes one or two commands, all through the handle it was given: first `interval:<InitialPeriod>` when the fetch worked, ending with the fallback whenever the fetch or that write failed; exactly one write when the fetch and first write worked or the fetch failed |
| `Session.Fallback` | nodeble-lab3.js:212-219 | the fallback sends `interval:1`; if that write works, it stores 1000 ms and arms a new single timer at 1000 ms; if it throws, nothing but the write log changes |
| `Session.SendInitialInterval` | nodeble-lab3.js:191-220 | it returns normally exactly when the first or the fallback write worked, and then has stored the synced period and armed a new single timer at it; its writes are exactly SyncWrites; when it throws, nothing but the write log changes |
| `Session.Catch` | nodeble-lab3.js:290-294 | the catch block drops the flag, asks the last known device to disconnect, leaves `txChar` as it was and changes nothing else |
| `Session.ConnectAttempt` | nodeble-lab3.js:233-286 | the attempt returns exactly when it completes and its sync succeeds; it connects unless discovery or connect threw; it allocates one device once discovery passed and one handle once the TX step passed, and `txChar` is otherwise unchanged; it writes exactly the sync's writes through the new handle, and only when every step passed; a throw changes nothing else (timers, interval, disconnect log); a success leaves the synced period stored and armed as the single timer |
| `Session.Iteration` | nodeble-lab3.js:231-301 | one loop iteration keeps the session invariant (at most one live timer, the one the script holds; known handles) |
| `Session.ConnectedIteration` | nodeble-lab3.js:233 | a connected iteration only pauses 100 ms; if the link drops in the pause, the handler clears both variables and 5000 ms follow |
| `Session.FailedIteration` | nodeble-lab3.js:290-300 | a failed attempt leaves the flag down, waits exactly 5000 ms and keeps the timer and the stored interval; `txChar` stays stale, or holds the new handle when the failure came after the TX step |
| `Session.SuccessfulIteration` | nodeble-lab3.js:233-289 | a successful attempt connects through a new device and a new TX handle, arms exactly one timer at the synced period, and waits only 100 ms |
| `Session.IterationWritesOnlyThroughNewHandle` | nodeble-lab3.js:233-278 | the loop writes only in the initial sync of an attempt that began disconnected, and only through the handle that attempt resolved |
| `Session.StaleHandleIsNotUsed` | nodeble-lab3.js:292 | after a failure past the TX step the stale handle remains, but neither the listener nor the console writes through it |
| `Session.Run` | nodeble-lab3.js:231-301 | any number of loop iterations keep the session invariant |
| `Session.RunOfFailures` | nodeble-lab3.js:297-300 | a run of failed attempts never connects, keeps the timer, and waits 5000 ms after each attempt |
| `Session.RetryThenConnect` | nodeble-lab3.js:231-301 | failures followed by a success: 5000 ms after each failure, then connected with exactly one live timer, running at the synced period, and a 100 ms pause |
| `BridgeScript.Bridge.constructor` | nodeble-lab3.js:61-63 | the variables start as the script declares them (also lines 23-24): 1000 ms, no timer, not connected, no handle, no device |
| `BridgeScript.Bridge.SetInterval` | nodeble-lab3.js:164 | `setInterval` adds a new live timer with a new id |
| `BridgeScript.Bridge.ClearInterval` | nodeble-lab3.js:166 | `clearInterval` removes that timer only |
| `BridgeScript.Bridge.StartSensorUpdates` | nodeble-lab3.js:162-169 | performs `Session.StartSensorUpdates` in place: one live timer at the new period |
| `BridgeScript.Bridge.StartApp` | nodeble-lab3.js:175-185 | performs `Session.StartApp` in place |
| `BridgeScript.Bridge.WriteTx` | nodeble-lab3.js:124 | appends one write through the current TX handle |
| `BridgeScript.Bridge.OnIntervalChanged` | nodeble-lab3.js:102-135 | performs `Session.IntervalChanged` in place |
| `BridgeScript.Bridge.OnDeviceDisconnect` | nodeble-lab3.js:282-286 | performs `Session.DeviceDisconnected` in place |
| `BridgeScript.Bridge.OnConsoleLine` | nodeble-lab3.js:325-344 | performs `Session.ConsoleLine` in place, given whether `device.disconnect()` resolves, and reports whether the process exits |
| `BridgeScript.Bridge.SendInitialInterval` | nodeble-lab3.js:191-220 | performs `Session.SendInitialInterval` in place and reports whether an error escapes |
| `BridgeScript.Bridge.ConnectAttempt` | nodeble-lab3.js:233-286 | runs the pipeline's steps in order, and stops at the step that throws, as `Session.ConnectAttempt` orders them |
| `BridgeScript.Bridge.Iterate` | nodeble-lab3.js:231-301 | performs `Session.Iteration` in place and returns its waits |
| `BridgeScript.Bridge.ConnectToDevice` | nodeble-lab3.js:230-302 | runs the loop for the given ticks and reaches `Session.Run`'s state and waits |

## Findings

| source | as written | input that shows it | evidently intended | confidence | as-written member | corrected member |
|---|---|---|---|---|---|---|
| nodeble-lab3.js:113-117 | the period is bounded by `if (v < 1000)` and `if (v > 10000)`, and both tests are false for NaN | `state/Interval` set to a non-numeric string or deleted: `parseFloat` gives NaN, so `interval` becomes NaN, `interval:NaN` is sent and the timer is re-armed with a NaN delay, which Node's timers treat as 1 ms, so the sampler reads the IMU and updates the cloud every millisecond | every period lies in [1000, 10000], as the comment on line 115 says and as the initial sync's `\|\| 1` ensures | not executed; high that NaN reaches these lines, medium on the intended value (1000 ms, the same as the initial sync's fallback) | `IntervalPolicy.ListenerAsWrittenPassesNaN` | `IntervalPolicy.ListenerPeriod` |

`Session` and `BridgeScript` use the corrected `ListenerPeriod`.
`IntervalPolicy.ListenerPeriodAsWritten` keeps the code's behaviour, and
`ListenerPeriod` agrees with it on every input except NaN.

## Left out

- Firebase: the app set-up, anonymous sign-in, `onValue`, `get`, `update` and the `ref` paths are foreign calls. Their results are inputs: the sign-in flag, the fetched `Number`, the interval change events. The `{temperature}` update is the value `TemperatureUpdate` returns.
- The `update_light` listener and its `sense.setPixel` pass-through. It has no logic of its own.
- `updateSensorReadings`: the IMU read, the `toFixed(2)` humidity text and its cloud update. This is a hardware driver and float formatting. The model only records which timer would call it, and at which period.
- node-ble discovery, connect, GATT resolution and `startNotifications`. These are transport calls. Only where they throw is modelled, as the `Stage` of a failed attempt. The RX notification handler only logs.
- `parseFloat`: values arrive already parsed, as a `Number`.
- Numbers are exact decimals, not IEEE-754 doubles, so products and the printed text carry no rounding. `DecimalText` writes plain notation only. JavaScript uses exponent notation below 1e-6 and from 1e21, but no formatted period is ever in that range. Negative zero is not distinguished from zero.
- Real time: `setTimeout`, `setInterval` firing and the loop's sleeps are modelled only as the waits each iteration returns, and as the set of live timers with their periods.
- Interleavings inside one connection attempt. Each iteration is one atomic step, and events come between iterations or in the 100 ms pause. So the model does not show a listener or console write that lands between lines 240 and 247, when `isConnected` is already true and `txChar` may still hold the previous session's handle.
- A `disconnect` event fired by the script's own `device.disconnect()` calls (lines 293 and 329). The script registers a new disconnect handler on every successful connection, so these accumulate. A rejection of the catch block's `device.disconnect()` (line 293) is swallowed; the one at line 329 is modelled.
- The process-level error handlers, `destroy()` and `process.exit()`. The model reports only whether the console handler ends the process; a rejection that escapes it only reaches the logging handler of line 19.
- Reading stdin. The handler is modelled on its own: in the script it is never reached, because `connectToDevice` never returns.
- Decoding the stdin buffer to a string. Console lines arrive as UTF-16 code units.
- Whether a TX write succeeds. The log records every write issued. The listener and the console catch write errors, and nothing in their state depends on the result. The initial sync's write results are inputs, because its control flow does depend on them.
- `BridgeScript.Bridge.ConnectToDevice`: covers a finite prefix of the endless loop, one tick per iteration.
- Session.IntervalChanged: stores and sends the corrected `ListenerPeriod`, so for NaN it stores 1000 ms, sends `interval:1000` and re-arms at 1000 ms, where lines 113-135 store NaN, send `interval:NaN` and re-arm with a NaN delay. The code's behaviour on NaN is stated only by `IntervalPolicy.ListenerPeriodAsWritten` and `IntervalPolicy.ListenerAsWrittenPassesNaN` (see Findings).
- BridgeScript.Bridge.OnIntervalChanged: performs `Session.IntervalChanged`, so it shares that divergence on NaN.
