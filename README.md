# openi2c-BNO08x bridge core, modelled in Dafny

openi2c-BNO08x is a Node.js native add-on. It connects a BNO08x inertial
sensor hub to JavaScript: a CEVA SH-2 driver talks to the hub over I2C, and
the hub's interrupt line is watched on a GPIO chip. This project models the
sequential logic of the add-on's C layer and proves properties of it:

- **Interrupt bridge** (`interrupt.c`):
  - the ring buffer of falling-edge timestamps: 600 entries, drops the
    oldest when full, and warns once per run of full pushes;
  - the worker thread's producer steps;
  - the main-thread dispatcher `irq_async_cb`, which drains the queue and
    calls the service callback for each burst until the line deasserts,
    at most 20000 times per burst;
  - the burst and level getters, the 32-bit microsecond clock, the start
    guard and the teardown.
- **I2C HAL** (`sh2_hal.c`):
  - the stored bus settings and descriptor;
  - open, which writes the reset frame, and close;
  - the two-phase SHTP read: first a 4-byte header, then `length + 4`
    bytes;
  - the write and the clock.
- **Type conversions** (`node_c_type_conversions.c`):
  - the validating converter from a JavaScript `SensorConfig` object to
    `sh2_SensorConfig_t`, and its opposite;
  - the field selection of asynchronous events and sensor events.
- **Entry points** (`funcs.c`):
  - the argument parser;
  - the I2C settings setter and getter;
  - the bookkeeping of the callback cookie that is handed to the driver.
- **Report decoding** (`sensor_report_auxialiry_fns.c`): three signed
  16-bit little-endian Q8 axes.

Modelling choices:

- State the C code changes in place is a Dafny class with that state:
  - `TimestampQueue.Queue`: a 600-slot array with head, tail and count;
  - `IrqBridge.Bridge`: the statics of `interrupt.c`;
  - `Sh2Hal.Hal`: `CURRENT_I2C_SETTINGS` and the statics of
    `read_from_i2c`;
  - `Funcs.Registry`: `_sensor_callback` and the heap cookies.
- Each method is proved against a function on values. The properties are
  lemmas about those functions.
- Everything the operating system, libgpiod, libuv or the JavaScript engine
  returns is a method input:
  - the level of the interrupt line is an oracle `lineValue(k)`, the value
    the k-th call of `irq_line_active` would read; a call that returns
    early because no line is requested still counts, and its value is
    ignored;
  - `read()`, `write()`, `open()` and `ioctl()` results are parameters;
  - JavaScript objects are maps from property names to values;
  - a JavaScript number is an exact real;
  - an exception thrown with `napi_throw_error` is returned as a list of
    (code, message) pairs, the code being none when the C code passes
    NULL.

The burst loop calls the service callback `1 + k` times, where `k` is the
number of consecutive asserted level reads, capped at 20000. For 5 asserted
reads followed by a deasserted one, this gives 6 calls. A count of one call
per asserted read would be one short. See `IrqBridge.BurstOfAssertedReads`.

Modules, one file each: `Common` (machine integers, Option),
`TimestampQueue`, `IrqBridge`, `Sh2Hal`, `JsValues`, `ReportDecoding`,
`TypeConversions`, `Funcs`.

## Model

| member | source | states |
|---|---|---|
| TimestampQueue.PushedEntries | src/c-src/interrupt.c:71-85 | A push on a non-full queue appends the value at the back, grows the queue by one and keeps every existing entry in place. A push on a full queue evicts exactly the oldest entry, appends the new one and keeps the length at 600. |
| TimestampQueue.PushedIsWindow | src/c-src/interrupt.c:72-85 | Every push leaves the newest (at most 600) of the values held plus the new one. |
| TimestampQueue.PushAllIsWindow | src/c-src/interrupt.c:63-92 | Any run of pushes without pops leaves the last min(N, 600) values of everything pushed, in arrival order. |
| TimestampQueue.FromEmpty | src/c-src/interrupt.c:52-92 | From the initial empty queue, N pushes leave exactly the last min(N, 600) of them, oldest first. |
| TimestampQueue.WarningsOnce | src/c-src/interrupt.c:71-82 | A run of pushes prints the overflow warning exactly once when some push finds the queue full, and never otherwise. The exception is a queue that was already full and already warned about. |
| TimestampQueue.DrainIsFifo | src/c-src/interrupt.c:94-116 | Popping until `tsq_pop` reports empty hands out exactly the queued entries, oldest first. |
| TimestampQueue.Queue.constructor | src/c-src/interrupt.c:53-57 | The static initialiser gives an empty queue with the warning flag clear. |
| TimestampQueue.Queue.Push | src/c-src/interrupt.c:63-92 | `tsq_push` keeps the ring invariant: count ≤ 600, head == (tail + count) mod 600, and entry i lives in buf[(tail + i) mod 600]. The new contents are `Pushed(old contents)`, and it reports whether the warning was printed. |
| TimestampQueue.Queue.Pop | src/c-src/interrupt.c:94-116 | `tsq_pop` on an empty queue returns false and changes nothing. Otherwise it returns the oldest entry and removes it; the warning flag is untouched. The ring invariant is kept. |
| IrqBridge.MonotonicNowUs32 | src/c-src/interrupt.c:19-25 | 0 when `clock_gettime` fails, otherwise (sec·10^6 + nsec/1000) mod 2^32, although the sum is first folded in 64-bit arithmetic. |
| IrqBridge.EdgeAgreesWithClock | src/c-src/interrupt.c:261 | An edge timestamp `ns / 1000`, cut to 32 bits, equals the worker clock's value at the same instant. |
| IrqBridge.FallingTimestamps | src/c-src/interrupt.c:253-263 | One drain pass yields at most one timestamp per edge event. |
| IrqBridge.LineActiveCases | src/c-src/interrupt.c:401-409 | The line is active iff a line is requested and the read returned 0. No request, a read error (< 0) or a high level is inactive. |
| IrqBridge.AssertedRun | src/c-src/interrupt.c:325-327 | Counts consecutive asserted reads: every read it counts is asserted, and the read after the run (if within budget) is not. |
| IrqBridge.BurstCalls | src/c-src/interrupt.c:324-327 | The service callback runs at least once and at most 20000 times per burst. |
| IrqBridge.BurstReads | src/c-src/interrupt.c:324-327 | The burst loop makes fewer than 20000 level reads. |
| IrqBridge.BurstStopsAtFirstDeassert | src/c-src/interrupt.c:324-327 | Every read before the last call was asserted. Below the cap, the read after the last call was deasserted. At the cap, no read follows the 20000th call. |
| IrqBridge.BurstOfAssertedReads | src/c-src/interrupt.c:324-327 | k asserted reads followed by a deasserted one give exactly k + 1 calls and k + 1 reads. |
| IrqBridge.StuckLowHitsCap | src/c-src/interrupt.c:324-327 | A line stuck low is serviced exactly 20000 times with 19999 reads, then the loop gives up. |
| IrqBridge.DispatchBounds | src/c-src/interrupt.c:318-330 | With a callback, the number of calls lies between the number of popped timestamps and 20000 times that number, and every call sees an active burst holding one of the popped timestamps. Without a callback, nothing is called and the line is never read. |
| IrqBridge.CallCounts | src/c-src/interrupt.c:318-330 | One count per popped timestamp. With a callback each count is between 1 and 20000; without one each is 0. |
| IrqBridge.DispatchIsBlocks | src/c-src/interrupt.c:318-330 | The calls form one block per popped timestamp, in queue order. Block i holds exactly `CallCounts[i]` consecutive calls, each seeing timestamp i. So each timestamp is serviced 1 to 20000 times with a callback. |
| IrqBridge.Released | src/c-src/interrupt.c:371-388 | Teardown releases the stop eventfd, the event buffer, the line request and the chip, each iff it is held. |
| IrqBridge.TornDown | src/c-src/interrupt.c:371-388 | After teardown nothing is held; `fd` and the line offset are left as they were. |
| IrqBridge.TeardownTwice | src/c-src/interrupt.c:371-388 | A second teardown releases nothing and changes nothing. |
| IrqBridge.Bridge.constructor | src/c-src/interrupt.c:35-61 | Initial statics: no GPIO resources, `pending` clear, empty queue, no callback, no burst. |
| IrqBridge.Bridge.CurrentBurst | src/c-src/interrupt.c:391-398 | `irq_current_burst` yields the burst timestamp iff an output location is given and a burst is active; otherwise nothing. |
| IrqBridge.Bridge.ReadLine | src/c-src/interrupt.c:401-409 | `irq_line_active` advances the oracle index by one per call and reports active iff a line is requested and the value read is 0 (low). Without a request it returns inactive before reading; the index counts calls, not device reads. |
| IrqBridge.Bridge.EdgePass | src/c-src/interrupt.c:302-308 | The worker pushes one timestamp per falling edge, in order, then raises `pending`. A wake is sent iff none was in flight. Afterwards no queued timestamp is left without a pending wake. |
| IrqBridge.Bridge.WorkerPrologue | src/c-src/interrupt.c:275-280 | If the first level read is asserted, the current time is pushed and `pending` raised; otherwise the queue and flag are unchanged. |
| IrqBridge.Bridge.CallUntilDeasserted | src/c-src/interrupt.c:325-327 | The do-while loop calls the callback exactly `BurstCalls` times, each time seeing the active burst, and makes exactly `BurstReads` level reads. |
| IrqBridge.Bridge.ServiceBurst | src/c-src/interrupt.c:320-329 | For one timestamp: the burst is set to it, the callback runs `BurstCalls` times if registered (never otherwise), and the burst is inactive afterwards. |
| IrqBridge.Bridge.PopAndService | src/c-src/interrupt.c:319-329 | One loop test and body: false on an empty queue. Otherwise the oldest timestamp is removed and serviced. |
| IrqBridge.Bridge.DrainQueue | src/c-src/interrupt.c:318-330 | The pop loop empties the queue. It services every queued timestamp in FIFO order, and what the callback sees and the reads it makes are exactly `Dispatch` of the old contents. |
| IrqBridge.Bridge.AsyncCallback | src/c-src/interrupt.c:314-331 | A wake with `pending` clear changes nothing. Otherwise `pending` is cleared and the queue is drained in FIFO order, each timestamp serviced as `Dispatch` says. If no timestamp was stranded before, the queue is empty after. |
| IrqBridge.ChipPath | src/c-src/interrupt.c:119-126 | A name containing '/' is opened as given. Any other name is prefixed with "/dev/" and cut to 63 characters. |
| IrqBridge.Bridge.SetupInterrupts | src/c-src/interrupt.c:118-233 | Returns the line descriptor iff every step succeeds, leaving chip, request and event buffer held, the descriptors stored and the offset recorded, so that the start guard passes. Any failure returns -1 with no chip held and nothing held that was not held before. The offset is recorded once the line settings are added, the descriptor once the line is requested. |
| IrqBridge.SetupThenStart | src/c-src/interrupt.c:118-354 | From program start, a successful setup followed by a start with loop and callback given returns 0, with the line requested. |
| IrqBridge.Bridge.StartWorker | src/c-src/interrupt.c:333-354 | Returns -1 and changes nothing unless a line is requested, both descriptors are valid, and a loop and a callback are given. Otherwise it registers the callback and clears `pending`, and returns 0 iff the async handle and the thread both start. |
| IrqBridge.Bridge.Teardown | src/c-src/interrupt.c:371-388 | `teardown_interrupts` releases exactly `Released(old)` and leaves `TornDown(old)`. |
| Sh2Hal.HeaderLength | src/c-src/sh2_hal.c:114-118 | The SHTP length: byte 0, then byte 1 with bit 7 (the continuation flag) cleared; always below 0x8000. |
| Sh2Hal.HostLoad16 | src/c-src/sh2_hal.c:116 | Loading two bytes as `u_int16_t` reads them little-endian on a little-endian host and swapped on a big-endian one. |
| Sh2Hal.Le16ToH | src/c-src/sh2_hal.c:118 | `le16toh` is the identity on a little-endian host and a byte swap on a big-endian one. |
| Sh2Hal.Mask15 | src/c-src/sh2_hal.c:117 | `& 0x7fff` keeps the low byte and clears bit 7 of the high byte. |
| Sh2Hal.AsWrittenOnLittleEndian | src/c-src/sh2_hal.c:114-118 | On a little-endian host the header code as written yields the SHTP length. |
| Sh2Hal.AsWrittenOnBigEndian | src/c-src/sh2_hal.c:114-118 | On a big-endian host the header `14 80` (length 20, continuation set) is decoded as 0x8014. |
| Sh2Hal.FixedOnEveryHost | src/c-src/sh2_hal.c:114-118 | Converting to host order before masking yields the SHTP length on every host. |
| Sh2Hal.ReadStepFacts | src/c-src/sh2_hal.c:109-136 | The header phase asks for 4 bytes and never delivers. It latches the decoded length, and moves to the body phase iff the read succeeded and the length is non-zero. The body phase asks for exactly length + 4 bytes. A failed body read keeps the state, so the next call retries. Only a successful body read delivers, returns the byte count, stamps the clock and goes back to the header phase. |
| Sh2Hal.RunBounds | src/c-src/sh2_hal.c:109-136 | Over any sequence of calls the reader invariant holds, no request exceeds 0x7fff + 4 bytes, and every delivery is followed by a header-phase call. |
| Sh2Hal.TwentyByteFrame | src/c-src/sh2_hal.c:114-135 | A header declaring 20 bytes gives a 0-returning header call, then a 24-byte request that delivers and stamps. |
| Sh2Hal.WriteResult | src/c-src/sh2_hal.c:149-157 | `write_to_i2c` returns 0 iff `write()` reported ≤ 0 bytes, and the byte count otherwise. |
| Sh2Hal.GetTimeUs | src/c-src/sh2_hal.c:163-168 | (sec·10^6 + nsec/1000) mod 2^32. |
| Sh2Hal.SameClockAsWorker | src/c-src/sh2_hal.c:163-168 | The HAL clock and the interrupt worker's clock report the same value. |
| Sh2Hal.DevicePath | src/c-src/sh2_hal.c:55-56 | The device path is `/dev/i2c-` followed by the bus number, at most 12 characters. |
| Sh2Hal.DevicePathFacts | src/c-src/sh2_hal.c:55-56 | The path always fits the 20-byte buffer with its terminator, and distinct buses give distinct paths. |
| Sh2Hal.ResetFrameIsWellFormed | src/c-src/sh2_hal.c:73-78 | The reset frame `05 00 01 00 01` is an SHTP frame that declares its own length of 5, has no continuation flag, is on channel 1 and carries payload 1. |
| Sh2Hal.Hal.constructor | src/c-src/sh2_hal.c:22 | Initial statics: settings all zero, which count as not open, and the reader in the header phase. |
| Sh2Hal.Hal.ReadFromI2c | src/c-src/sh2_hal.c:109-136 | One call is exactly `ReadStep` on the reader statics; the caller's `len` plays no part. |
| Sh2Hal.Hal.Open | src/c-src/sh2_hal.c:47-91 | Already open (fd > 0): returns 0 and changes nothing. A failed `open()`: returns 1 with fd -1. A failed ioctl: closes the descriptor, fd -1, returns 1. Otherwise it writes the reset frame and returns 0 iff all 5 bytes were written. Bus and address are never changed. |
| Sh2Hal.Hal.Close | src/c-src/sh2_hal.c:27-40 | Closes the descriptor only when fd > 0, then fd is -1. Otherwise nothing changes. Afterwards the device is not open. |
| Sh2Hal.Hal.SetSettings | src/c-src/sh2_hal.c:170-174 | The whole record is replaced; the getter then returns exactly it. |
| ReportDecoding.AxisRaw | src/c-src/sensor_report_auxialiry_fns.c:27-33 | A little-endian word read as a two's-complement int16: byte pair value if bit 15 is clear, minus 2^16 if set. |
| ReportDecoding.AxisRoundTrip | src/c-src/sensor_report_auxialiry_fns.c:27-33 | Axis decoding is a bijection between byte pairs and [-32768, 32767]: encode then decode and decode then encode are identities. |
| ReportDecoding.DecodeAxes | src/c-src/sensor_report_auxialiry_fns.c:27-38 | x, y and z come from bytes 4-5, 6-7 and 8-9, each raw / 256, within [-128, 128). |
| ReportDecoding.DecodeEncodedReport | src/c-src/sensor_report_auxialiry_fns.c:27-38 | Any report carrying x, y and z at offsets 4, 6 and 8 decodes to x/256, y/256 and z/256, whatever the header and trailing bytes. |
| ReportDecoding.FF00Decodes | src/c-tests/test_sensor_report_auxiliary.c:12-22 | The test buffer with `FF 00` on every axis decodes to 0.99609375 on each. |
| ReportDecoding.SignBit | src/c-src/sensor_report_auxialiry_fns.c:31-33 | `00 80` is -128.0 and `FF FF` is -1/256. |
| ReportDecoding.AddGettersToAccelerometerReport | src/c-src/sensor_report_auxialiry_fns.c:7-84 | Returns 1 with the object unchanged iff the "report" property is missing or is not a Buffer, and then throws "Couldn't get buffer from sensor event." with no code. Otherwise it returns 0 and throws nothing, with x, y and z set to the decoded axes and every other property kept. |
| TypeConversions.ReadField | src/c-src/node_c_type_conversions.c:274-406 | What each property yields: booleans for the five flags, a uint32 of at most 65535 for changeSensitivity, uint32s for the two intervals, and a Buffer of at most 4 bytes for sensorSpecific. |
| TypeConversions.FirstBad | src/c-src/node_c_type_conversions.c:255-408 | The first rejected property in the converter's order (or past the end): every property before it is accepted and it is rejected. |
| TypeConversions.Padded | src/c-src/node_c_type_conversions.c:405 | A buffer of n ≤ 4 bytes fills the first n bytes of the zeroed field; the rest stay 0. |
| TypeConversions.Filled | src/c-src/node_c_type_conversions.c:268-406 | The struct after the first k properties are stored keeps sensorSpecific at 4 bytes. |
| TypeConversions.ReadBoolProperty | src/c-src/node_c_type_conversions.c:273-329 | A flag block succeeds iff the property is absent or a boolean, and then stores it. On failure the struct is unchanged. |
| TypeConversions.ReadChangeSensitivity | src/c-src/node_c_type_conversions.c:331-349 | Succeeds iff the property is absent, or a number whose uint32 value is at most 65535, which is then stored. A present value that is not a number throws "changeSensitivity is not a uint32." with code ERROR_TRANSLATING_NODE_TO_STRUCT; an out-of-range number fails without throwing. |
| TypeConversions.ReadInterval | src/c-src/node_c_type_conversions.c:351-387 | Succeeds iff the property is absent or a number; its uint32 value is stored verbatim. |
| TypeConversions.ReadSensorSpecific | src/c-src/node_c_type_conversions.c:389-406 | Succeeds iff the property is absent or a Buffer of at most 4 bytes, which is copied to the start of the zeroed field. |
| TypeConversions.FromSensorConfigToC | src/c-src/node_c_type_conversions.c:255-408 | Returns EXIT_SUCCESS iff every property is accepted. The struct holds what the properties before the first rejected one stored, on a zeroed base. It throws exactly when the first rejected property is a changeSensitivity that is not a number; every other rejection throws nothing. |
| TypeConversions.FilledFields | src/c-src/node_c_type_conversions.c:268-406 | After k accepted properties, each field below k holds its decoded value (zero when absent, padded buffer) and every later field holds the memset zero. |
| TypeConversions.ConvertedFields | src/c-src/node_c_type_conversions.c:268-406 | The converter's struct, field by field: decoded values before the first rejection, zeros from it on. |
| TypeConversions.EmptyObjectIsZero | src/c-src/node_c_type_conversions.c:268 | An object with no properties is accepted and gives the all-zero struct. |
| TypeConversions.ChangeSensitivityOutOfRange | src/c-src/node_c_type_conversions.c:345-347 | A changeSensitivity above 65535 makes the conversion fail, whatever else the object holds. |
| TypeConversions.SensorSpecificTooLong | src/c-src/node_c_type_conversions.c:402-404 | A sensorSpecific Buffer longer than 4 bytes makes the conversion fail. |
| TypeConversions.WrongKindRejected | src/c-src/node_c_type_conversions.c:274-401 | A present property of the wrong kind makes the conversion fail: a non-boolean flag, a non-number sensitivity or interval, or a non-Buffer sensorSpecific. |
| TypeConversions.TestConfigConverts | src/c-tests/test_type_conversions.c:36-84 | The repository's test object (all flags true, three numbers 12345) is accepted and converts to exactly those values. |
| TypeConversions.SensorConfigToJs | src/c-src/node_c_type_conversions.c:117-172 | `c_to_SensorConfig` sets the nine properties, with sensorSpecific as the number the 32-bit field holds. |
| TypeConversions.SensorConfigRoundTripFails | src/c-src/node_c_type_conversions.c:399-401 | Every object `c_to_SensorConfig` makes is rejected by `from_SensorConfig_to_c` at sensorSpecific, the ninth property. |
| TypeConversions.SensorConfigToJsFixed | src/c-src/node_c_type_conversions.c:117-172 | The same nine properties, with sensorSpecific as a Buffer of the field's 4 bytes. |
| TypeConversions.SensorConfigRoundTrip | src/c-src/node_c_type_conversions.c:255-408 | Converting any struct with the fixed converter and back is accepted and gives the struct again. |
| TypeConversions.ProductIdToJs | src/c-src/node_c_type_conversions.c:86-115 | The object `c_to_ProductId` returns holds none of the eight properties the ProductId type declares. |
| TypeConversions.ProductIdLost | src/c-src/node_c_type_conversions.c:86-115 | Two product ids that differ in every field give the same, empty, object. |
| TypeConversions.ProductIdToJsFixed | src/binding_types.ts:34-43 | The corrected object has exactly the eight declared properties, each field as a number. |
| TypeConversions.ProductIdRoundTrip | src/binding_types.ts:34-43 | The corrected object reads back as the product id it was made from. |
| TypeConversions.SensorConfigRespToJs | src/c-src/node_c_type_conversions.c:197-216 | The response object has exactly sensorId and config, and config is the converted SensorConfig. |
| TypeConversions.AsyncEventToJs | src/c-src/node_c_type_conversions.c:218-253 | Exactly id, shtpEvent and sh2SensorConfigResp are present, and id is the event id. shtpEvent is non-null iff the id is SHTP_EVENT, and then it holds the event byte. The response is non-null iff the id is GET_FEATURE_RESP, and then it holds the converted response. |
| TypeConversions.AsyncEventOnlyIdAndPayload | src/c-src/node_c_type_conversions.c:227-245 | Different ids give different objects. For any other id, the object does not depend on the payloads. An SHTP event depends only on its event byte. |
| TypeConversions.SensorEventToJs | src/c-src/node_c_type_conversions.c:16-84 | The eight axis report ids get x, y and z decoded from the report bytes on top of the five base properties. The rotation vector gets what the rotation helper returns. Any other id gets exactly the base properties. |
| TypeConversions.EventBaseInjective | src/c-src/node_c_type_conversions.c:29-51 | The five base properties determine the event: distinct events give distinct objects. |
| Funcs.ParseArgs | src/c-src/funcs.c:21-130 | Succeeds iff the status is `napi_ok` and min ≤ argc ≤ max. A failed status throws its own message, with UNKNOWN_ERROR iff the status is not one of the listed ones. A wrong count throws the argument-count message. |
| Funcs.ParseErrorIdentifiesCause | src/c-src/funcs.c:25-128 | A status failure never throws the same error as a count failure. The code is UNKNOWN_ERROR exactly for unlisted statuses. |
| Funcs.CheckI2cArgs | src/c-src/funcs.c:143-157 | Accepted iff parsing succeeds with exactly two arguments, both numbers whose uint32 values are at most 0xFF; those values are the bus and address. Any rejection throws one error, the range message when the arguments parsed. |
| Funcs.RangeCheckSeesConvertedValue | src/c-src/funcs.c:149-152 | The range check sees the engine's uint32 conversion: a bus of 2^32 + 1 is accepted as bus 1, and -1 is rejected. |
| Funcs.CbSetI2cSettings | src/c-src/funcs.c:137-164 | Valid arguments replace the whole record with (bus, addr, fd 0), so an open device counts as closed and no descriptor is closed. Invalid arguments throw and leave the record unchanged. |
| Funcs.SettingsObject | src/c-src/funcs.c:174-181 | The getter's object has exactly bus and addr, which read back as the stored values. |
| Funcs.CbGetI2cSettings | src/c-src/funcs.c:171-188 | Returns the stored bus and address as numbers. |
| Funcs.I2cSettingsRoundTrip | src/c-src/funcs.c:149-181 | After a successful set, the getter returns values that convert to what the arguments converted to. For integer arguments in range it returns the very same numbers. |
| Funcs.SetThenGetDefaultDevice | src/tests/setI2CConfig.test.ts:6-12 | Setting bus 1 and address 0x4b, then getting, yields {bus: 1, addr: 0x4b}. |
| Funcs.Registry.constructor | src/c-src/funcs.c:236 | No registration and no cookie at start. |
| Funcs.Registry.Release | src/c-src/funcs.c:267-273 | The current cookie, if any, is freed with its references; no cookie remains. |
| Funcs.Registry.SetSensorCallback | src/c-src/funcs.c:245-289 | A parse failure throws two errors and a malloc failure throws one; both change nothing. Otherwise the previous cookie is freed and the new cookie (function, cookie) becomes the only one, and it is handed to the driver as the sensor cookie. |
| Funcs.Registry.Sh2Open | src/c-src/funcs.c:322-380 | A missing global or a parse failure throws and changes nothing. Otherwise the previous cookie is freed, the new one becomes the only one, and it is the driver's event cookie iff `sh2_open` returned 0. Any other return leaves the driver with no event cookie and throws the driver error. |
| Funcs.OpenThenSetCallbackFreesEventCookie | src/c-src/funcs.c:268-273 | Opening and then registering a sensor callback leaves the driver holding an event cookie that has been freed. |
| Funcs.SeparateRegistry.ValidMeansLive | src/c-src/funcs.c:236 | With one slot per role, every cookie the driver holds is allocated. |
| Funcs.SeparateRegistry.constructor | src/c-src/funcs.c:236 | No cookies at start. |
| Funcs.SeparateRegistry.SetSensorCallback | src/c-src/funcs.c:245-289 | Replaces only the sensor cookie. The event slot and its cookie are untouched, and every driver cookie stays allocated. |
| Funcs.SeparateRegistry.Sh2Open | src/c-src/funcs.c:322-380 | Replaces only the event cookie. The sensor slot and its cookie are untouched, and every driver cookie stays allocated. The driver's event cookie is the new one iff `sh2_open` returned 0, and none otherwise. |
| Funcs.OpenThenSetCallbackKeepsEventCookie | src/c-src/funcs.c:347-373 | With separate slots, the same open-then-register sequence leaves the event cookie allocated and holding the open call's arguments. |

## Left out

- Concurrency in `interrupt.c`:
  - the worker thread's `poll` loop and the stop eventfd;
  - `uv_async_init` and `uv_async_send`;
  - the mutex and the atomics.
  Worker and main thread are modelled as a sequential interleaving of their steps.
- A failed mutex lock or unlock in `tsq_push`/`tsq_pop` is not modelled: it only prints, or skips the push.
- IrqBridge.Bridge.SetupInterrupts: the libgpiod and eventfd results are parameters. The unchecked setting of direction, edge detection, bias and consumer label is not modelled, nor is a NULL chip name. Resources held before a second setup are overwritten, not released; the model records only that nothing new is left held on failure.
- `stop_irq_worker` is not modelled. It joins a thread, and since it never resets `irq_thread`, a second call joins again.
- IrqBridge.Bridge.EdgePass: the events are given as a sequence, so the 16-event read limit and read errors of `drain_edge_events` are not modelled.
- IrqBridge.Bridge.StartWorker: the context argument and the `uv_close` on a failed thread start are not modelled.
- The vendor SH-2 library is external:
  - `sh2_open`, `sh2_service`, `sh2_close`, `sh2_devReset` and `sh2_setSensorCallback`;
  - so also `cb_service`, `cb_sh2_close` and `make_hal`, which only forward to it.
- Funcs.Registry.SetSensorCallback: a negative return of `sh2_setSensorCallback` only prints and is not modelled.
- Funcs.Registry.Sh2Open: assumes the driver holds the new event cookie when `sh2_open` returns 0, and no event cookie otherwise, since a driver that failed to open reports no events. The unchecked `malloc` is taken to succeed.
- Funcs.SeparateRegistry.Sh2Open: makes the same assumption about `sh2_open`, and sets the event cookie to none on a failed open just as Funcs.Registry.Sh2Open does.
- `sensor_callback` and `async_event_callback_broker`, which call into JavaScript, are not modelled. `sensor_callback` also reads its cookie as a `napi_env` (funcs.c:212).
- N-API failures while creating values, setting properties or making references are not modelled; neither is garbage collection.
  - Funcs.CbGetI2cSettings: values are assumed created.
  - TypeConversions.SensorConfigToJs: likewise.
  - TypeConversions.AsyncEventToJs: likewise.
  - TypeConversions.SensorEventToJs: likewise, and the `malloc` of the report copy is assumed to succeed.
- ReportDecoding.AddGettersToAccelerometerReport: the failure of `napi_get_named_property` (sensor_report_auxialiry_fns.c:13-17) is not modelled, because the argument is always an object. The six creation and property-setting failures (lines 43-82) are not modelled either, because values are assumed created and set. Each of them returns 1 and throws an exception with no code.
- TypeConversions.FromSensorConfigToC:
  - the statuses of `napi_has_named_property` and `napi_get_named_property` are not modelled;
  - this includes the status check before batchInterval_us;
  - a value that is not an object is not modelled either.
- `c_to_AsyncEventId` is not modelled: it only builds a table of constants (node_c_type_conversions.c:174-195).
- TypeConversions.ProductIdToJs: the eight `napi_create_uint32` statuses and the exception thrown when one fails are not modelled, because values are assumed created. The function reads the eight fields of the product id but sets none of them on the object (see Findings).
- Sh2Hal.GetTimeUs: the `clock_gettime` status is not checked by `get_time_us` (sh2_hal.c:165), unlike the worker's clock, so a failed read is not modelled. The sum is formed in the signed type of the timespec fields before it is widened; the model takes it modulo 2^32, which two's-complement wrap-around leaves unchanged.
- JavaScript numbers are exact reals:
  - NaN and the infinities are not modelled;
  - the conversion of a Q8 value to a double is not modelled.
  Q8 values are exact, so no rounding is lost.
- TypeConversions.SensorEventToJs: the rotation-vector helpers are not part of this model. They are a parameter (`addRotation`).
- TypeConversions.SensorEventToJs requires at least 10 report bytes for the axis ids. So do ReportDecoding.DecodeAxes and ReportDecoding.AddGettersToAccelerometerReport. The C code reads those bytes without a length check, so a shorter report has no defined result.
- Sh2Hal.Hal.ReadFromI2c: assumes a little-endian host. The big-endian behaviour is modelled separately (`HeaderLengthAsWritten`).
- Sh2Hal.Hal.Open: the one-second sleep after the reset is not modelled. The printed messages are not modelled.
- Sh2Hal.Hal.Close: the hub reset requested from the driver is not modelled; it only affects a message.
- The `Unknown` status of `Funcs.NapiStatus` stands for every status value that `parse_args` does not list.

## Findings

| source | as written | input that shows it | evidently intended | confidence | as-written member | corrected member |
|---|---|---|---|---|---|---|
| src/c-src/sh2_hal.c:116-118 | The header word is masked with 0x7fff before `le16toh`, so on a big-endian host the mask clears bit 7 of the low byte instead of the continuation bit. | Header `14 80` on a big-endian host: the length is read as 0x8014 instead of 20. | Convert to host order first, then mask. | not executed | Sh2Hal.AsWrittenOnBigEndian | Sh2Hal.FixedOnEveryHost |
| src/c-src/node_c_type_conversions.c:145 | `c_to_SensorConfig` emits sensorSpecific as a number, but `from_SensorConfig_to_c` (lines 399-401) accepts only a Buffer. The SensorConfig type in binding_types.ts also declares a Buffer. | Any SensorConfig struct: its JavaScript object is rejected at sensorSpecific. | Emit sensorSpecific as a Buffer of its 4 bytes, so the two conversions are inverse. | not executed | TypeConversions.SensorConfigRoundTripFails | TypeConversions.SensorConfigRoundTrip |
| src/c-src/node_c_type_conversions.c:100-114 | `c_to_ProductId` creates a number for each of the eight fields but never sets them on the object, so JavaScript receives `{}`. | Any product id, e.g. reset cause 1, version 3.2.1, build 7: the object has no properties. | Set each number on the object under the name the ProductId type declares. | not executed | TypeConversions.ProductIdLost | TypeConversions.ProductIdRoundTrip |
| src/c-src/funcs.c:268-273 | `cb_setSensorCallback` and `cb_sh2_open` share one static cookie and each frees the previous one. The cookie handed to `sh2_open` as the event cookie (line 373) is therefore freed by the next `cb_setSensorCallback`. | `open(fn, c)` returning 0, then `setSensorCallback(fn2, c2)`: the driver's event cookie is freed. | Keep one cookie per role and replace only that one. | not executed | Funcs.OpenThenSetCallbackFreesEventCookie | Funcs.OpenThenSetCallbackKeepsEventCookie |
