# esp32_interfaces pin-control core in Dafny

This project models the pin-control core of the two ESP32 firmwares in
`esp32_interfaces`. This core sits between the GPIO/LEDC/ADC drivers and the
two remote transports (a BLE GATT service and an HTTP bridge). It has four
parts:

- **Pin-state store** (`pin_store.dfy`, module `PinStore`): the six
  `GPIOnn_STATE` atomics for pins 14, 26, 25, 32, 35 and 33. They are
  modelled as a `Store` class whose `slots` field is a map from those pin
  numbers to `u32`. Every slot starts at 0.
- **Periodic pin tasks** (`pin_tasks.dfy`, module `PinTasks`): one pass of
  each task's `for item in items.iter_mut()` loop. The four tasks are the
  digital-output driver, the PWM duty mapping, the digital-input sampler
  and the ADC sampler. The ADC pass works in place on the item array. It
  `take()`s each handle and puts it back.
- **Pin-role allocator** (`allocator.dfy`, module `Allocator`): the four
  loops in `main` that consume the pool of `Option` GPIO handles in a
  fixed order (basic write, basic read, PWM, ADC). The PWM loop also hands
  out LEDC channels through `channel_idx`. `RolePlan` is a reference
  definition of which pins each role keeps. Lemmas about it state
  exclusivity, precedence, order and de-duplication. Each loop is a
  method proved equal to that plan.
- **Command batches, BLE and HTTP** (`commands.dfy`, `ble.dfy`, `web.dfy`):
  - applying a decoded `PinRequest` batch to the allow-listed slots;
  - `u32_to_u8_pair` and the two 32-byte telemetry frames;
  - the GATT event loop and the telemetry task;
  - the advertise/`select` session loop;
  - the two HTTP handlers.

`types.dfy` holds the machine integer types `u8`/`u16`/`u32`, `Option`, the
GPIO token and `Level`.

Hardware and BLE-stack inputs are parameters:
- the level a digital input reads;
- each ADC conversion result, as `Option<u16>`;
- the channel's `max_duty_cycle()`;
- each connection event;
- whether each RSSI read succeeds;
- how each advertising round ends.

Hardware outputs are returned in item order: the levels driven and the duties
programmed. JSON decoding is abstract: the BLE write event carries a payload
that is either not UTF-8, UTF-8 that does not parse, or a decoded batch.

Behaviour the model keeps from the code that a reader may not expect:
- Slots exist for all six pins from start-up, not only for allocated pins.
- The BLE layer is given the configured analog pin list, not the allocated
  subset.
- A non-UTF-8 BLE write panics. It is not just dropped.
- A write that fails to parse `continue`s before `event.accept()`, so the
  explicit reply is skipped.
- A command batch has no entry bound: `Vec` is unbounded, so nothing rejects
  a long batch.
- The PWM product `state as u32 * max_duty` is modelled as wrapping in 32
  bits. `PwmNoWrap` shows it cannot wrap for any value a slot can hold.
- The HTTP handlers belong to a separate firmware (esp32_wifi) whose pin
  module is not part of this model. There the six `GPIOnn_STATE` atomics
  are `i32` (the handlers store `item.state as i32`), and the read
  handler's `as i32` at esp32_wifi/src/web.rs:84 is an identity cast. The
  model uses one `u32` slot map for both firmwares and models that cast as
  a `u32`-to-`i32` reinterpretation. `ReadValueIsSlot` shows that the
  reinterpretation never changes a value below 2^31, and every stored value
  is below 2^31.
- The start-up configuration (`Config`, esp32_ble/src/bin/main.rs:45-52)
  is a record of the Bluetooth name and the four pin lists. It arrives
  decoded.

## Model

| member | source | states |
|---|---|---|
| PinStore.InitialSlots | esp32_ble/src/pin.rs:18-23 | all six slots start at 0 and are within the firmware's bounds |
| PinStore.Store.constructor | esp32_ble/src/pin.rs:18-23 | a fresh store holds the initial slots and is valid (every slot within its bounds) |
| PinStore.Store.Load | esp32_ble/src/pin.rs:35 | an atomic load returns the slot's current value |
| PinStore.Store.Put | esp32_ble/src/pin.rs:94 | an atomic store changes that one slot and no other; a value within the slot's bounds keeps the store valid |
| PinStore.LoadOr0 | esp32_ble/src/pin.rs:34-40 | a `match` over some pins reads those pins' slots and 0 for any other pin number |
| PinStore.StoreIf | esp32_ble/src/pin.rs:93-99 | a `match` store writes only a pin it has an arm for; every other slot is unchanged |
| PinStore.ApplyWritesAt | esp32_wifi/src/web.rs:57-65 | after stores issued in order, each writable slot holds the last value written to it and every other slot keeps its value |
| PinStore.LastValueIsLast | esp32_wifi/src/web.rs:57-65 | the reference "last write" value comes from a write to that pin that no later write to it follows |
| PinStore.ApplyWritesIdempotent | esp32_wifi/src/web.rs:57-65 | replaying the same stores a second time changes nothing |
| PinStore.ApplyWritesBounded | esp32_ble/src/pin.rs:89-99 | stores of in-range values keep every slot within its bounds |
| Commands.BatchLastWriteWins | esp32_ble/src/ble.rs:187-201 | for a pin in {14,26,25,33} named by the batch, its slot holds the state of the batch's last entry for it; a pin not named, an unknown pin, 32 and 35 keep their values |
| Commands.BatchKeepsAdcSlots | esp32_ble/src/ble.rs:190-200 | the command path never writes slots 32 and 35 |
| Commands.BatchIdempotent | esp32_ble/src/ble.rs:187-201 | sending the same batch twice leaves the store as sending it once |
| Commands.BatchBounded | esp32_ble/src/ble.rs:28-31 | `u8` states keep every slot within its bounds |
| PinTasks.DriveLevel | esp32_ble/src/pin.rs:41-45 | the output driver sets High exactly for the slot value 100 and Low for every other value |
| PinTasks.BasicWritePass | esp32_ble/src/pin.rs:32-46 | one level per item, in order; High exactly when the pin is one of 14, 26, 25, 33 and its slot is exactly 100 |
| PinTasks.CommandDrivesOutput | esp32_ble/src/pin.rs:41-45 | after a batch whose last entry for a writable pin carries `state`, the driver sets that pin High iff `state` is 100 |
| PinTasks.PwmDuty | esp32_ble/src/pin.rs:69-71 | the duty for a slot value: 0 % gives duty 0 and 100 % gives the channel's maximum duty |
| PinTasks.PwmDutyScales | esp32_ble/src/pin.rs:69-71 | for 0 ≤ state ≤ 100 the duty is `floor(state*max/100)`: 0 at 0 %, `max` at 100 %, never above `max` |
| PinTasks.PwmNoWrap | esp32_ble/src/pin.rs:70 | for any slot value below 256 the `u32` product does not wrap |
| PinTasks.PwmDutyMonotone | esp32_ble/src/pin.rs:70 | a higher percentage never programs a smaller duty |
| PinTasks.PwmWritePass | esp32_ble/src/pin.rs:60-72 | one duty per item, in order: the item's slot (0 for an unknown pin) mapped through the duty formula |
| PinTasks.LevelState | esp32_ble/src/pin.rs:89-92 | the sampler stores 100 for High and 0 for Low, and the output driver maps that value back to the same level |
| PinTasks.BasicReadPass | esp32_ble/src/pin.rs:86-100 | the store after the pass is the old store with the sampler's stores applied in item order; a valid store stays valid |
| PinTasks.SamplerStoresLevels | esp32_ble/src/pin.rs:87-99 | each item's own slot gets 100 for High and 0 for Low; slots with no item, unknown pins and 32/35 are unchanged; bounds are kept |
| PinTasks.AdcSample | esp32_ble/src/pin.rs:121-153 | an item issues no store exactly when it has its handle and the conversion fails; it stores 0 when its handle is missing, and the conversion's value when it succeeds |
| PinTasks.AdcPassStores | esp32_ble/src/pin.rs:120-159 | a successful conversion's value is in its slot; a failed one leaves the slot as it was; a missing handle stores 0; no slot other than 32 and 35 changes, and an analog slot that no item names keeps its value |
| PinTasks.AdcFailureSkipsOnlyItself | esp32_ble/src/pin.rs:124-129 | a failed conversion issues no store, and the items before and after it issue the stores they would issue without it |
| PinTasks.AdcReadPass | esp32_ble/src/pin.rs:120-160 | the handle taken for a conversion is put back on success and failure, so the items are unchanged; the slots change as the issued stores say; a valid store stays valid |
| Allocator.Claimed | esp32_ble/src/bin/main.rs:96-116 | reference definition of the pins one role loop keeps: in list order, each wirable pin whose handle is still free; its properties are the Claimed lemmas below |
| Allocator.RolePlan | esp32_ble/src/bin/main.rs:94-219 | reference definition of the four loops in order: each digital role claims from the pins the earlier roles left, the analog role from all six; its properties are PlanPrecedence, PlanOrder and PlanDigitalAtMostFour |
| Allocator.ClaimedMembers | esp32_ble/src/bin/main.rs:96-116 | a role keeps a pin iff it is configured for the role, wirable for it and its handle is still free |
| Allocator.ClaimedDistinct | esp32_ble/src/bin/main.rs:99-115 | a pin repeated in a role's list is kept once |
| Allocator.ClaimedSubsequence | esp32_ble/src/bin/main.rs:96-116 | a role's kept pins are an order-preserving subsequence of its configured list |
| Allocator.ClaimedWithin | esp32_ble/src/bin/main.rs:111 | a role keeps only wirable pins whose handles are free |
| Allocator.PlanPrecedence | esp32_ble/src/bin/main.rs:94-219 | each pin goes to the first of write, read, PWM that names it (only 14, 26, 25, 33); only 32 and 35 become analog inputs; no pin is in two roles |
| Allocator.PlanOrder | esp32_ble/src/bin/main.rs:96-219 | each role's list is a subsequence of its configured list with no pin twice |
| Allocator.TakeDigital | esp32_ble/src/bin/main.rs:98-112 | `take()` yields the handle of a digital pin still in the pool and leaves `None` behind; a pin taken earlier or without an arm yields `None` and leaves the pool alone |
| Allocator.TakeFree | esp32_ble/src/bin/main.rs:99-100 | taking a free pin leaves the pool of the other free pins |
| Allocator.TakeTaken | esp32_ble/src/bin/main.rs:99-100 | taking a pin whose handle is gone leaves the pool as it was |
| Allocator.ClaimStep | esp32_ble/src/bin/main.rs:96-116 | one more list entry is kept exactly when the role can wire it and its handle is still in the pool |
| Allocator.ClaimedCard | esp32_ble/src/bin/main.rs:96-116 | a role's kept pins are as many distinct pins as entries, all wirable and free |
| Allocator.ClaimedAtMostFour | esp32_ble/src/bin/main.rs:146-188 | a digital role keeps at most four pins, so `CHANNELS[channel_idx]` (eight entries) is always in bounds |
| Allocator.PlanDigitalAtMostFour | esp32_ble/src/bin/main.rs:86-91 | write, read and PWM together keep at most four pins, the four digital handles of the pool |
| Allocator.AllocateBasicWrite | esp32_ble/src/bin/main.rs:94-116 | the write loop keeps exactly the planned pins, each item holds its own pin's handle, and those handles leave the pool |
| Allocator.AllocateBasicRead | esp32_ble/src/bin/main.rs:119-132 | the read loop keeps exactly the planned pins, each item holds its own pin's handle, and those handles leave the pool |
| Allocator.AllocatePwmWrite | esp32_ble/src/bin/main.rs:146-190 | the PWM loop keeps exactly the planned pins; the k-th item gets channel k because `channel_idx` moves only on success, and `CHANNELS[channel_idx]` stays in bounds |
| Allocator.AllocateAdcRead | esp32_ble/src/bin/main.rs:192-219 | the ADC loop keeps the planned 32/35 pins; a pin-32 item carries `gpio32 = Some`, `gpio35 = None`, and the reverse for 35 |
| Allocator.Allocate | esp32_ble/src/bin/main.rs:85-235 | every role list matches the plan; at most four digital items; PWM channels are 0, 1, 2, …; the BLE layer gets the configured analog list |
| Ble.U32ToU8Pair | esp32_ble/src/ble.rs:307-311 | the pair is the low 16 bits of the value, high byte first: `hi*256 + lo` is the value modulo 65536, and the value itself when it is below 65536 |
| Ble.U8PairInverse | esp32_ble/src/ble.rs:307-311 | splitting `hi*256 + lo` gives back `(hi, lo)` |
| Ble.DigitalFrame | esp32_ble/src/ble.rs:268-271 | the digital frame is `[3,14,100,26,100,25,100]` zero-padded to 32 bytes |
| Ble.AdcNotification | esp32_ble/src/ble.rs:276-291 | the analog frame exists exactly when there are at most 10 pins; it is 32 bytes long and starts with the pin count |
| Ble.AdcFrameLayout | esp32_ble/src/ble.rs:276-291 | the analog frame exists iff n ≤ 10; byte 0 is n; bytes 3i+1..3i+3 are pin i, the high and the low byte of its slot; bytes after 3n+1 are the digital frame's |
| Ble.DecodeAdcFrame | esp32_ble/src/ble.rs:314 | reading the documented frame format back gives one (pin, 16-bit value) per counted triple |
| Ble.AdcFrameRoundTrip | esp32_ble/src/ble.rs:276-291 | decoding the analog frame gives every configured pin with its slot value (0 for pins other than 32/35) |
| Ble.TelemetryFrames | esp32_ble/src/ble.rs:266-294 | one tick builds the digital frame and then the analog frame over the same buffer; an over-long copy is the panic |
| Ble.TicksAt | esp32_ble/src/ble.rs:268-292 | in the notification log of the ticks, even entries are digital frames and odd ones analog frames |
| Ble.TelemetryTask | esp32_ble/src/ble.rs:266-305 | the task notifies the digital and then the analog frame each tick, up to and including the tick whose RSSI read fails; it ends only then or, with more than 10 analog pins, when the first copy panics |
| Ble.HandleEvents | esp32_ble/src/ble.rs:135-222 | reference event semantics: the events give at most one explicit accept and reply each |
| Ble.EventsEndOnlyOnTerminal | esp32_ble/src/ble.rs:135-137 | the events loop ends exactly at the first disconnect, failed attribute read or non-UTF-8 write, and ends the way that event calls for |
| Ble.EventsKeepAdcSlots | esp32_ble/src/ble.rs:190-200 | the events loop never writes slots 32 and 35 and keeps bounds |
| Ble.UnparsableIsDropped | esp32_ble/src/ble.rs:179-184 | a write that does not parse changes no slot and gets no explicit accept or reply, as if it had not arrived |
| Ble.StorePinWrites | esp32_ble/src/ble.rs:187-201 | the store after a decoded batch is the batch applied to the allow-listed slots; a valid store stays valid |
| Ble.GattEventsTask | esp32_ble/src/ble.rs:128-225 | the event loop's store, end and reply count are the reference event semantics; a valid store stays valid |
| Ble.SelectFirst | esp32_ble/src/ble.rs:84-88 | the connection ends when one task ends, as that task ended; unless it panicked, the end is not fatal |
| Ble.Run | esp32_ble/src/ble.rs:79-97 | each connection's end is the `select` of its two tasks' ends; after a non-fatal end control returns to advertising; only an advertising error or a panic in a task halts; the loop stays connected only while both tasks still run; `served` counts the connections accepted up to the first stop |
| Web.AsI32 | esp32_wifi/src/web.rs:84 | `as i32` gives the two's-complement value in the `i32` range, equal to the input modulo 2^32 |
| Web.WritePinsHandler | esp32_wifi/src/web.rs:56-68 | the store after the request is the batch applied in order to slots 14, 26, 25, 33; a valid store stays valid; the answer is always success |
| Web.ReadPinsHandler | esp32_wifi/src/web.rs:70-91 | one item per requested pin, same order, echoing the pin with its read value, which on a valid store is exactly the slot (0 for a pin without a slot); the store is not touched; always success |
| Web.ReadValueIsSlot | esp32_wifi/src/web.rs:73-81 | a read reports the slot for all six pins, including 32 and 35, which cannot be written, and 0 for any other pin |
| Web.ReadAfterWrite | esp32_wifi/src/web.rs:57-81 | reading a writable pin after a batch reports the state of the batch's last entry for it |
| Web.TransportEquivalence | esp32_wifi/src/web.rs:57-65 | from the same slots, a batch written over BLE leaves the slots exactly as the HTTP write handler does, and gets one reply |
| Web.WriteOverBleReadOverHttp | esp32_wifi/src/web.rs:73-81 | with one set of slots behind both transports, writing pin 14 to 100 over BLE and then reading over HTTP reports 100 for pin 14 and the sampled value for pin 32 |

## Left out

- The BLE host stack (advertising-data encoding, the GATT attribute server,
  `notify`, RSSI, the `ble_task` runner, `select`/`join` scheduling). Only
  its outcomes are modelled, as parameters. A failing `notify` is ignored by
  the source, so it is not modelled.
- The `ble_task` runner's own panic on error (esp32_ble/src/ble.rs:115-122).
  It runs beside the session loop and is not part of it.
- JSON decoding (`serde_json_core`, the picoserve `Json` extractor) and
  loading the configuration with `include_bytes!`. Batches and
  configurations arrive decoded.
- Atomics with `Ordering::Relaxed`, task spawning and the 500 ms / 2 s timer
  periods. The store is a single-threaded map, and each task is modelled as
  one pass or a finite sequence of ticks.
- Hardware configuration: GPIO drivers, the LEDC timer and ADC
  attenuation. A failing `set_duty_cycle` is discarded by the source
  (esp32_ble/src/pin.rs:71), so it is not modelled.
- The start-up panics on a hardware error: `t.configure(…).unwrap()` for the
  LEDC timer (esp32_ble/src/bin/main.rs:143) and `ch.configure(…).unwrap()`
  inside the PWM allocation loop (esp32_ble/src/bin/main.rs:183). The
  allocator model assumes both calls succeed.
- `event.accept()` failures (esp32_ble/src/ble.rs:212-218). They are only
  logged. The reply count counts explicit accept attempts. The implicit
  accept when an event is dropped (esp32_ble/src/ble.rs:210) is not counted.
- Wi-Fi association, the `web_task` server loop, the router and timeout
  configuration, and logging.
- The older single-pin variant esp32_ble/main.rs. Its allocation loop is the
  same as the one modelled from esp32_ble/src/bin/main.rs.
- The host-side Go client. It scans and writes over BLE and holds no core
  logic.
- PinTasks.BasicWritePass returns the levels it sets. It does not model
  the `Output` driver's own state.
- PinTasks.PwmWritePass returns the duties it hands to `set_duty_cycle`.
  It does not model the LEDC channel's register state.
- One slot map stands for the slots of both firmwares: the wireless
  firmware's `u32` atomics and the Wi-Fi firmware's `i32` atomics. The two
  agree because every value either firmware stores is below 2^31.
  Web.TransportEquivalence and Web.WriteOverBleReadOverHttp compare the two
  write paths over the same slots. No single firmware in the repository
  serves both transports.
- Ble.TelemetryTask holds the slots fixed across its ticks, so every analog
  frame it notifies carries the first tick's values. In the firmware, the
  ADC sampler and the events task run during each 2 s wait. Each tick's
  frame is the frame of the slots at that tick (Ble.TelemetryFrames).
