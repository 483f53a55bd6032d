/** The wireless side: the byte split used by telemetry, the telemetry
    frames, the GATT event loop that applies write batches, and the
    advertise/connect session loop. The BLE host stack is abstract: each
    foreign call's outcome (an event, a read of the attribute table, the
    RSSI query, advertising) arrives as a parameter. */
module Ble {
  import opened Types
  import opened PinStore
  import opened Commands

  // ------------------------------------------------------- u32_to_u8_pair

  /** `((value >> 8) as u8, value as u8)`: the shift is a division by 256
      and the `as u8` cast keeps the value modulo 256. The pair is the low
      16 bits of the value, high byte first: exactly the value when it fits
      in 16 bits, as every analog slot does. */
  function U32ToU8Pair(value: u32): (pair: (u8, u8))
    ensures pair.0 * 0x100 + pair.1 == value % 0x1_0000
    ensures value < 0x1_0000 ==> pair.0 * 0x100 + pair.1 == value
  {
    var q := value / 0x100;
    assert value == q * 0x100 + value % 0x100;
    assert q == (q / 0x100) * 0x100 + q % 0x100;
    assert value == (q / 0x100) * 0x1_0000 + (q % 0x100) * 0x100 + value % 0x100;
    (q % 0x100, value % 0x100)
  }

  /** Splitting a value made of a high and a low byte gives those bytes
      back. */
  lemma U8PairInverse(hi: u8, lo: u8)
    ensures U32ToU8Pair(hi * 0x100 + lo) == (hi, lo)
  {
    var v := hi * 0x100 + lo;
    assert v / 0x100 == hi && v % 0x100 == lo;
  }

  // ------------------------------------------------------------ telemetry

  /** The fixed digital snapshot: count 3, then (pin, value) pairs. */
  const DemoData: seq<u8> := [3, 14, 100, 26, 100, 25, 100]
  /** Size of every characteristic buffer. */
  const FrameLen: nat := 32

  /** The digital notification: the snapshot copied into a zeroed buffer. */
  function DigitalFrame(): (f: seq<u8>)
    ensures |f| == FrameLen
    ensures f[..|DemoData|] == DemoData
    ensures forall k :: |DemoData| <= k < FrameLen ==> f[k] == 0
  {
    DemoData + seq(FrameLen - |DemoData|, _ => 0)
  }

  /** The triple `(pin, high byte, low byte)` reported for one analog pin;
      pins other than 32 and 35 report 0. */
  function AdcTriple(m: Slots, pin: u8): (t: seq<u8>)
  {
    var pair := U32ToU8Pair(LoadOr0(m, pin, AdcPins));
    [pin, pair.0, pair.1]
  }

  /** The triples for `pins`, in order (`demo_adc_data` after its count). */
  function AdcTriples(m: Slots, pins: seq<u8>): (r: seq<u8>)
    ensures |r| == 3 * |pins|
    decreases |pins|
  {
    if pins == [] then []
    else AdcTriples(m, pins[..|pins| - 1]) + AdcTriple(m, pins[|pins| - 1])
  }

  /** The analog notification: `num_pins as u8` and the triples, copied over
      the front of the buffer that still holds the digital frame. `None`
      when the payload is longer than the buffer, where `copy_from_slice`
      panics. */
  function AdcNotification(m: Slots, pins: seq<u8>): (r: Option<seq<u8>>)
    ensures r.Some? <==> |pins| <= 10
    ensures r.Some? ==> |r.value| == FrameLen && r.value[0] == |pins|
  {
    var payload := [|pins| % 0x100] + AdcTriples(m, pins);
    if |payload| <= FrameLen then Some(payload + DigitalFrame()[|payload|..]) else None
  }

  lemma {:induction false} AdcTriplesAt(m: Slots, pins: seq<u8>, i: nat)
    requires i < |pins|
    ensures AdcTriples(m, pins)[3 * i .. 3 * i + 3] == AdcTriple(m, pins[i])
    decreases |pins|
  {
    var init := pins[..|pins| - 1];
    if i < |pins| - 1 {
      AdcTriplesAt(m, init, i);
      assert AdcTriples(m, pins)[3 * i .. 3 * i + 3] == AdcTriples(m, init)[3 * i .. 3 * i + 3];
    } else {
      assert AdcTriples(m, pins)[3 * i .. 3 * i + 3] == AdcTriple(m, pins[i]);
    }
  }

  /** Layout of the analog frame: it exists exactly when `3n + 1 <= 32`
      (at most 10 pins); byte 0 is the pin count, bytes `3i+1`, `3i+2`,
      `3i+3` are the i-th pin, the high and the low byte of its slot, and the
      bytes after the payload are still the digital frame's. */
  lemma AdcFrameLayout(m: Slots, pins: seq<u8>)
    ensures AdcNotification(m, pins).Some? <==> |pins| <= 10
    ensures AdcNotification(m, pins).Some? ==>
              var f := AdcNotification(m, pins).value;
              |f| == FrameLen && f[0] == |pins| &&
              (forall i :: 0 <= i < |pins| ==>
                 f[3 * i + 1] == pins[i] &&
                 f[3 * i + 2] == U32ToU8Pair(LoadOr0(m, pins[i], AdcPins)).0 &&
                 f[3 * i + 3] == U32ToU8Pair(LoadOr0(m, pins[i], AdcPins)).1) &&
              (forall k :: 3 * |pins| + 1 <= k < FrameLen ==> f[k] == DigitalFrame()[k])
  {
    if |pins| <= 10 {
      var f := AdcNotification(m, pins).value;
      var tr := AdcTriples(m, pins);
      forall i | 0 <= i < |pins|
        ensures f[3 * i + 1] == pins[i]
        ensures f[3 * i + 2] == U32ToU8Pair(LoadOr0(m, pins[i], AdcPins)).0
        ensures f[3 * i + 3] == U32ToU8Pair(LoadOr0(m, pins[i], AdcPins)).1
      {
        AdcTriplesAt(m, pins, i);
        assert f[3 * i + 1] == tr[3 * i] && f[3 * i + 2] == tr[3 * i + 1] && f[3 * i + 3] == tr[3 * i + 2];
      }
    }
  }

  /** Reading an analog frame back: the count, then one (pin, 16-bit value)
      per triple. */
  function DecodeAdcFrame(f: seq<u8>): (r: seq<(u8, int)>)
    requires |f| >= 1 && 3 * f[0] + 1 <= |f|
    ensures |r| == f[0]
  {
    seq(f[0], (i: int) requires 0 <= i < f[0] => (f[3 * i + 1], f[3 * i + 2] as int * 0x100 + f[3 * i + 3] as int))
  }

  /** Round trip: decoding the analog frame gives every configured pin with
      its slot value (0 for pins other than 32 and 35), as long as the
      analog slots hold 16-bit conversions. */
  lemma AdcFrameRoundTrip(m: Slots, pins: seq<u8>)
    requires Bounded(m)
    requires |pins| <= 10
    ensures AdcNotification(m, pins).Some?
    ensures var f := AdcNotification(m, pins).value;
            |f| >= 1 && 3 * f[0] + 1 <= |f| &&
            DecodeAdcFrame(f) == seq(|pins|, i requires 0 <= i < |pins| => (pins[i], LoadOr0(m, pins[i], AdcPins) as int))
  {
    AdcFrameLayout(m, pins);
    var f := AdcNotification(m, pins).value;
    var d := DecodeAdcFrame(f);
    forall i | 0 <= i < |pins| ensures d[i] == (pins[i], LoadOr0(m, pins[i], AdcPins) as int) {
      var v := LoadOr0(m, pins[i], AdcPins);
      assert v < 0x1_0000;
    }
  }

  /** One tick of `custom_task`: the digital frame, then the analog frame
      built by pushing the count and each pin's triple into a vector and
      copying it over the front of the same 32-byte buffer. `None` for the
      analog frame is the panic of an over-long copy. */
  method TelemetryFrames(store: Store, adcReadPinNums: seq<u8>) returns (digital: seq<u8>, adc: Option<seq<u8>>)
    ensures digital == DigitalFrame()
    ensures adc == AdcNotification(store.slots, adcReadPinNums)
  {
    var data := new u8[FrameLen](_ => 0);
    forall k | 0 <= k < |DemoData| {
      data[k] := DemoData[k];
    }
    assert data[..] == DigitalFrame();
    digital := data[..];

    var numPins := |adcReadPinNums|;
    var demoAdcData: seq<u8> := [numPins % 0x100];
    for i := 0 to numPins
      invariant demoAdcData == [numPins % 0x100] + AdcTriples(store.slots, adcReadPinNums[..i])
      invariant data[..] == digital
    {
      assert adcReadPinNums[..i + 1][..i] == adcReadPinNums[..i];
      var pinNum := adcReadPinNums[i];
      var value: u32 := 0;
      if pinNum in AdcPins {
        value := store.Load(pinNum);
      }
      var pair := U32ToU8Pair(value);
      demoAdcData := demoAdcData + [pinNum, pair.0, pair.1];
    }
    assert adcReadPinNums[..numPins] == adcReadPinNums;
    if |demoAdcData| > FrameLen {
      adc := None;
      return;
    }
    ghost var before := data[..];
    forall k | 0 <= k < |demoAdcData| {
      data[k] := demoAdcData[k];
    }
    assert forall k :: 0 <= k < FrameLen ==>
             data[k] == if k < |demoAdcData| then demoAdcData[k] else before[k];
    ghost var expected := demoAdcData + DigitalFrame()[|demoAdcData|..];
    assert before == DigitalFrame();
    assert |expected| == FrameLen;
    forall k | 0 <= k < FrameLen ensures data[k] == expected[k] {
      if k >= |demoAdcData| {
        assert expected[k] == DigitalFrame()[k];
      }
    }
    assert data[..] == expected;
    adc := Some(data[..]);
  }

  /** How the telemetry task stops: the RSSI read failed, or the analog copy
      panicked; `Running` when the given ticks ran out first. */
  datatype TelemetryEnd = RssiFailed | FramePanic | Running

  /** Index of the first failed RSSI read, `|rssi|` when none failed. */
  function FirstRssiFailure(rssi: seq<bool>): (k: nat)
    ensures k <= |rssi|
    ensures forall j :: 0 <= j < k ==> rssi[j]
    ensures k < |rssi| ==> !rssi[k]
    decreases |rssi|
  {
    if rssi == [] then 0
    else if !rssi[0] then 0
    else 1 + FirstRssiFailure(rssi[1..])
  }

  /** The notifications of `n` completed ticks: the digital frame, then the
      analog frame, once per tick. */
  function Ticks(n: nat, digital: seq<u8>, adc: seq<u8>): (r: seq<seq<u8>>)
    ensures |r| == 2 * n
  {
    if n == 0 then [] else Ticks(n - 1, digital, adc) + [digital, adc]
  }

  /** Even notifications are digital frames and odd ones analog frames. */
  lemma {:induction false} TicksAt(n: nat, digital: seq<u8>, adc: seq<u8>, k: nat)
    requires k < 2 * n
    ensures Ticks(n, digital, adc)[k] == if k % 2 == 0 then digital else adc
  {
    if k < 2 * (n - 1) {
      TicksAt(n - 1, digital, adc, k);
    }
  }

  /** The analog frame the ticks notify; irrelevant when no tick completes. */
  function AdcFrameOrEmpty(m: Slots, pins: seq<u8>): seq<u8>
  {
    var f := AdcNotification(m, pins);
    if f.Some? then f.value else []
  }

  /** `custom_task` over successive ticks, `rssi[t]` saying whether the RSSI
      read of tick `t` succeeded. Each tick notifies the digital frame then
      the analog frame; the task ends only when an RSSI read fails (or the
      analog copy panics, on the first tick, when more than 10 analog pins
      are configured). */
  method TelemetryTask(store: Store, adcReadPinNums: seq<u8>, rssi: seq<bool>)
    returns (notified: seq<seq<u8>>, end: TelemetryEnd)
    ensures end == FramePanic <==> |rssi| > 0 && |adcReadPinNums| > 10
    ensures end == RssiFailed <==> |adcReadPinNums| <= 10 && FirstRssiFailure(rssi) < |rssi|
    ensures end == FramePanic ==> notified == [DigitalFrame()]
    ensures end == RssiFailed ==>
              notified == Ticks(FirstRssiFailure(rssi) + 1, DigitalFrame(), AdcFrameOrEmpty(store.slots, adcReadPinNums))
    ensures end == Running ==>
              notified == Ticks(|rssi|, DigitalFrame(), AdcFrameOrEmpty(store.slots, adcReadPinNums))
  {
    notified := [];
    AdcFrameLayout(store.slots, adcReadPinNums);
    ghost var adcFrame := AdcFrameOrEmpty(store.slots, adcReadPinNums);
    for t := 0 to |rssi|
      invariant notified == Ticks(t, DigitalFrame(), adcFrame)
      invariant t > 0 ==> |adcReadPinNums| <= 10
      invariant forall j :: 0 <= j < t ==> rssi[j]
    {
      var digital, adc := TelemetryFrames(store, adcReadPinNums);
      if adc.None? {
        notified := notified + [digital];
        end := FramePanic;
        return;
      }
      notified := notified + [digital, adc.value];
      if !rssi[t] {
        end := RssiFailed;
        return;
      }
    }
    end := Running;
  }

  // ------------------------------------------------------ GATT event loop

  /** The three characteristics of the pin service. */
  datatype Handle = PinDataOutput | AdcDataOutput | PinDataInput

  /** A write to `pin_data_input`, as far as decoding gets: not UTF-8, UTF-8
      that is not a `PinRequest`, or a decoded batch. */
  datatype WritePayload = NotUtf8 | Unparsable | PinRequest(pinWrites: seq<PinWriteItem>)

  /** A GATT event; for a read, `valueAvailable` is whether
      `server.get` of that characteristic's value succeeds. */
  datatype GattEvent = Read(handle: Handle, valueAvailable: bool) | Write(payload: WritePayload) | OtherGatt

  datatype ConnectionEvent = Disconnected | Gatt(event: GattEvent) | OtherConnectionEvent

  /** How `gatt_events_task` stops: the peer disconnected, a read of the
      attribute table failed (the `?` returns `Err`), or a non-UTF-8 write
      panicked; `Listening` when the given events ran out first. */
  datatype EventsEnd = Closed | AttributeError | WritePanic | Listening

  datatype EventsResult = EventsResult(slots: Slots, end: EventsEnd, replies: nat)

  /** An event after which the task handles no more. */
  predicate Terminal(e: ConnectionEvent)
  {
    e.Disconnected? ||
    (e.Gatt? && e.event.Read? && e.event.handle != PinDataInput && !e.event.valueAvailable) ||
    (e.Gatt? && e.event.Write? && e.event.payload.NotUtf8?)
  }

  /** How the task ends on a terminal event. */
  function EndOn(e: ConnectionEvent): EventsEnd
    requires Terminal(e)
  {
    if e.Disconnected? then Closed
    else if e.event.Read? then AttributeError
    else WritePanic
  }

  /** The store after a non-terminal event: only a decoded batch writes. */
  function Effect(m: Slots, e: ConnectionEvent): Slots
  {
    if e.Gatt? && e.event.Write? && e.event.payload.PinRequest? then ApplyBatch(m, e.event.payload.pinWrites)
    else m
  }

  /** Whether a non-terminal event gets the explicit `event.accept()` and
      `reply.send()`: every GATT event does, except a write that fails to
      parse, whose `continue` skips them (the event is then accepted only
      implicitly, when it is dropped). */
  predicate GetsReply(e: ConnectionEvent)
  {
    e.Gatt? && !(e.event.Write? && e.event.payload.Unparsable?)
  }

  /** The event loop: the store after the events, how the loop ended and
      how many events were explicitly accepted and replied to (at most one
      per event). */
  function HandleEvents(m: Slots, events: seq<ConnectionEvent>, replies: nat): (r: EventsResult)
    ensures replies <= r.replies <= replies + |events|
    decreases |events|
  {
    if events == [] then EventsResult(m, Listening, replies)
    else if Terminal(events[0]) then EventsResult(m, EndOn(events[0]), replies)
    else HandleEvents(Effect(m, events[0]), events[1..], if GetsReply(events[0]) then replies + 1 else replies)
  }

  /** The events task ends exactly at the first terminal event, in the way
      that event calls for; it keeps listening when there is none. */
  lemma {:induction false} EventsEndOnlyOnTerminal(m: Slots, events: seq<ConnectionEvent>, replies: nat)
    ensures HandleEvents(m, events, replies).end == Listening <==> forall k :: 0 <= k < |events| ==> !Terminal(events[k])
    ensures HandleEvents(m, events, replies).end != Listening ==>
              exists k :: 0 <= k < |events| && Terminal(events[k]) && EndOn(events[k]) == HandleEvents(m, events, replies).end &&
                forall j :: 0 <= j < k ==> !Terminal(events[j])
    decreases |events|
  {
    if events != [] && !Terminal(events[0]) {
      var m' := Effect(m, events[0]);
      var n' := if GetsReply(events[0]) then replies + 1 else replies;
      EventsEndOnlyOnTerminal(m', events[1..], n');
      var r := HandleEvents(m, events, replies);
      if r.end != Listening {
        var k :| 0 <= k < |events[1..]| && Terminal(events[1..][k]) && EndOn(events[1..][k]) == r.end &&
                 forall j :: 0 <= j < k ==> !Terminal(events[1..][j]);
        assert events[k + 1] == events[1..][k];
        forall j | 0 <= j < k + 1 ensures !Terminal(events[j]) {
          if j > 0 { assert events[j] == events[1..][j - 1]; }
        }
      } else {
        forall k | 0 <= k < |events| ensures !Terminal(events[k]) {
          if k > 0 { assert events[k] == events[1..][k - 1]; }
        }
      }
    }
  }

  /** The command path never writes the analog slots 32 and 35, and keeps
      every slot within its bounds. */
  lemma {:induction false} EventsKeepAdcSlots(m: Slots, events: seq<ConnectionEvent>, replies: nat)
    ensures HandleEvents(m, events, replies).slots[32] == m[32]
    ensures HandleEvents(m, events, replies).slots[35] == m[35]
    ensures Bounded(m) ==> Bounded(HandleEvents(m, events, replies).slots)
    decreases |events|
  {
    if events != [] && !Terminal(events[0]) {
      var e := events[0];
      if e.Gatt? && e.event.Write? && e.event.payload.PinRequest? {
        BatchKeepsAdcSlots(m, e.event.payload.pinWrites);
        if Bounded(m) { BatchBounded(m, e.event.payload.pinWrites); }
      }
      EventsKeepAdcSlots(Effect(m, e), events[1..], if GetsReply(e) then replies + 1 else replies);
    }
  }

  /** A write that fails to parse leaves the store alone and gets no
      explicit accept or reply: the loop then behaves as if the event had
      never arrived. */
  lemma UnparsableIsDropped(m: Slots, before: seq<ConnectionEvent>, after: seq<ConnectionEvent>)
    requires forall k :: 0 <= k < |before| ==> !Terminal(before[k])
    ensures HandleEvents(m, before + [Gatt(Write(Unparsable))] + after, 0) == HandleEvents(m, before + after, 0)
  {
    DropUnparsable(m, before, after, 0);
  }

  lemma {:induction false} DropUnparsable(m: Slots, before: seq<ConnectionEvent>, after: seq<ConnectionEvent>, n: nat)
    requires forall k :: 0 <= k < |before| ==> !Terminal(before[k])
    ensures HandleEvents(m, before + [Gatt(Write(Unparsable))] + after, n) == HandleEvents(m, before + after, n)
    decreases |before|
  {
    var full := before + [Gatt(Write(Unparsable))] + after;
    if before == [] {
      assert full[1..] == after && before + after == after;
    } else {
      assert full[0] == before[0];
      assert full[1..] == before[1..] + [Gatt(Write(Unparsable))] + after;
      assert (before + after)[0] == before[0] && (before + after)[1..] == before[1..] + after;
      assert !Terminal(before[0]);
      DropUnparsable(Effect(m, before[0]), before[1..], after, if GetsReply(before[0]) then n + 1 else n);
    }
  }

  /** Apply a decoded batch with `store`s into the allow-listed slots. */
  method StorePinWrites(store: Store, pinWrites: seq<PinWriteItem>)
    requires store.Valid()
    modifies store
    ensures store.slots == ApplyBatch(old(store.slots), pinWrites)
    ensures store.Valid()
  {
    BatchBounded(store.slots, pinWrites);
    ghost var ws := BatchWrites(pinWrites);
    for i := 0 to |pinWrites|
      invariant ApplyWrites(store.slots, ws[i..], CommandPins) == ApplyBatch(old(store.slots), pinWrites)
    {
      assert ws[i..][0] == ws[i] && ws[i..][1..] == ws[i + 1..];
      var pinNum := pinWrites[i].pinNum;
      if pinNum in CommandPins {
        store.Put(pinNum, pinWrites[i].state);
      }
    }
  }

  /** `gatt_events_task` over a finite stream of connection events. */
  method GattEventsTask(store: Store, events: seq<ConnectionEvent>) returns (end: EventsEnd, replies: nat)
    requires store.Valid()
    modifies store
    ensures EventsResult(store.slots, end, replies) == HandleEvents(old(store.slots), events, 0)
    ensures store.Valid()
  {
    replies := 0;
    var i := 0;
    while i < |events|
      invariant i <= |events|
      invariant HandleEvents(store.slots, events[i..], replies) == HandleEvents(old(store.slots), events, 0)
      invariant store.Valid()
      decreases |events| - i
    {
      assert events[i..][0] == events[i] && events[i..][1..] == events[i + 1..];
      match events[i] {
        case Disconnected =>
          end := Closed;
          return;
        case OtherConnectionEvent =>
        case Gatt(event) =>
          match event {
            case Read(handle, valueAvailable) =>
              if handle != PinDataInput && !valueAvailable {
                end := AttributeError;
                return;
              }
            case Write(payload) =>
              match payload {
                case NotUtf8 =>
                  end := WritePanic;
                  return;
                case Unparsable =>
                  i := i + 1;
                  continue;
                case PinRequest(pinWrites) =>
                  StorePinWrites(store, pinWrites);
              }
            case OtherGatt =>
          }
          // event.accept() and reply.send()
          replies := replies + 1;
      }
      i := i + 1;
    }
    end := Listening;
  }

  // --------------------------------------------------------- session loop

  /** Why a connection's `select` finished, or a panic inside it. */
  datatype SessionEnd = PeerDisconnected | AttributeFailure | RssiLost | CommandPanic | TelemetryPanic

  /** The session end a finished events task gives. */
  function EventsSessionEnd(e: EventsEnd): (r: Option<SessionEnd>)
    ensures r.None? <==> e == Listening
  {
    match e
    case Closed => Some(PeerDisconnected)
    case AttributeError => Some(AttributeFailure)
    case WritePanic => Some(CommandPanic)
    case Listening => None
  }

  /** The session end a finished telemetry task gives. */
  function TelemetrySessionEnd(t: TelemetryEnd): (r: Option<SessionEnd>)
    ensures r.None? <==> t == Running
  {
    match t
    case RssiFailed => Some(RssiLost)
    case FramePanic => Some(TelemetryPanic)
    case Running => None
  }

  /** A connection end after which the firmware is stopped in its panic
      handler. */
  predicate Panicked(s: SessionEnd)
  {
    s == CommandPanic || s == TelemetryPanic
  }

  /** `select(a, b)` over the events task and the telemetry task: the
      connection ends as soon as one of them has ended, as that one ended.
      When both have ended, `eventsFirst` says which finished first (the
      scheduling is not modelled). Unless the task that ended panicked,
      the connection's end is not fatal and control goes back to
      advertising. */
  function SelectFirst(e: EventsEnd, t: TelemetryEnd, eventsFirst: bool): (r: Option<SessionEnd>)
    ensures r.None? <==> e == Listening && t == Running
    ensures r.Some? ==> r == EventsSessionEnd(e) || r == TelemetrySessionEnd(t)
    ensures t == Running ==> r == EventsSessionEnd(e)
    ensures e == Listening ==> r == TelemetrySessionEnd(t)
    ensures r.Some? && e != WritePanic && t != FramePanic ==> !Panicked(r.value)
  {
    if e != Listening && (eventsFirst || t == Running) then EventsSessionEnd(e) else TelemetrySessionEnd(t)
  }

  /** One turn of the loop in `run`: advertising failed, or a central
      connected and the two tasks reached these ends, `eventsFirst` saying
      which of them finished first when both did. */
  datatype Attempt = AdvertiseError | Session(events: EventsEnd, telemetry: TelemetryEnd, eventsFirst: bool)

  /** The connection's end, `None` while both tasks are still running. */
  function Outcome(a: Attempt): Option<SessionEnd>
    requires a.Session?
  {
    SelectFirst(a.events, a.telemetry, a.eventsFirst)
  }

  /** A turn after which the firmware is stopped in its panic handler. */
  predicate Fatal(a: Attempt)
  {
    a.AdvertiseError? || (Outcome(a).Some? && Panicked(Outcome(a).value))
  }

  /** A turn whose connection is still open when the inputs run out. */
  predicate StillConnected(a: Attempt)
  {
    a.Session? && Outcome(a).None?
  }

  /** A turn after which the loop does not advertise again. */
  predicate Stops(a: Attempt)
  {
    Fatal(a) || StillConnected(a)
  }

  datatype Phase = Advertising | Connected | Halted

  /** Index of the first turn after which the loop does not advertise
      again, `|attempts|` when there is none. */
  function FirstStop(attempts: seq<Attempt>): (k: nat)
    ensures k <= |attempts|
    ensures forall j :: 0 <= j < k ==> !Stops(attempts[j])
    ensures k < |attempts| ==> Stops(attempts[k])
    decreases |attempts|
  {
    if attempts == [] then 0
    else if Stops(attempts[0]) then 0
    else 1 + FirstStop(attempts[1..])
  }

  /** The advertise/select loop of `run`. After each connection, whichever
      task ended it, control returns to advertising; only an advertising
      error or a panic inside a task stops the loop, and a connection whose
      tasks both still run keeps it connected. `served` counts the
      connections accepted. */
  method Run(attempts: seq<Attempt>) returns (phase: Phase, served: nat)
    ensures phase == Advertising <==> forall k :: 0 <= k < |attempts| ==> !Stops(attempts[k])
    ensures phase == Connected <==> FirstStop(attempts) < |attempts| && StillConnected(attempts[FirstStop(attempts)])
    ensures phase == Halted <==> FirstStop(attempts) < |attempts| && Fatal(attempts[FirstStop(attempts)])
    ensures served == FirstStop(attempts) +
              (if FirstStop(attempts) < |attempts| && attempts[FirstStop(attempts)].Session? then 1 else 0)
  {
    phase, served := Advertising, 0;
    for i := 0 to |attempts|
      invariant phase == Advertising
      invariant served == i
      invariant forall j :: 0 <= j < i ==> !Stops(attempts[j])
    {
      match attempts[i]
      case AdvertiseError =>
        phase := Halted;
        return;
      case Session(events, telemetry, eventsFirst) =>
        phase := Connected;
        served := served + 1;
        var first := SelectFirst(events, telemetry, eventsFirst);
        if first.None? {
          return;
        }
        if Panicked(first.value) {
          phase := Halted;
          return;
        }
        phase := Advertising;
    }
  }
}
