/** The HTTP bridge of the Wi-Fi firmware: `POST /write-pins` and
    `POST /read-pins`. That firmware keeps its own six `GPIOnn_STATE`
    atomics, as `i32`; they are modelled by the same `Slots` as the
    wireless firmware's `u32` atomics, which agree with them because every
    value the firmwares store is below 2^31. JSON extraction is left to
    the framework; the handlers receive the decoded records. */
module Web {
  import opened Types
  import opened PinStore
  import opened Commands
  import Ble

  datatype PinWriteResponse = PinWriteResponse(success: bool)
  /** `PinReadItem { pin_num: u8, state: i32 }`. */
  datatype PinReadItem = PinReadItem(pinNum: u8, state: int)
  datatype PinReadResponse = PinReadResponse(pinReads: seq<PinReadItem>, success: bool)

  /** `v as i32`: the 32-bit pattern read as two's complement. */
  function AsI32(v: u32): (r: int)
    ensures -0x8000_0000 <= r < 0x8000_0000
    ensures r % 0x1_0000_0000 == v
  {
    if v < 0x8000_0000 then v else v - 0x1_0000_0000
  }

  /** The `state` reported for a requested pin: the slot value for 14, 26,
      25, 33, 32 and 35, and 0 for any other pin. */
  function ReadValue(m: Slots, pin: u8): int
  {
    AsI32(LoadOr0(m, pin, SlotPins))
  }

  /** `write_pins_handler`: stores each entry's state into slot 14, 26, 25
      or 33 in request order, ignores other pins, and always answers
      success. */
  method WritePinsHandler(store: Store, pinWrites: seq<PinWriteItem>) returns (response: PinWriteResponse)
    requires store.Valid()
    modifies store
    ensures store.slots == ApplyBatch(old(store.slots), pinWrites)
    ensures store.Valid()
    ensures response.success
  {
    BatchBounded(store.slots, pinWrites);
    ghost var ws := BatchWrites(pinWrites);
    for i := 0 to |pinWrites|
      invariant ApplyWrites(store.slots, ws[i..], CommandPins) == ApplyBatch(old(store.slots), pinWrites)
    {
      assert ws[i..][0] == ws[i] && ws[i..][1..] == ws[i + 1..];
      var item := pinWrites[i];
      if item.pinNum in CommandPins {
        store.Put(item.pinNum, item.state);
      }
    }
    response := PinWriteResponse(true);
  }

  /** `read_pins_handler`: one item per requested pin, in request order,
      echoing the pin and reporting its value; the store is not touched and
      the answer is always success. */
  method ReadPinsHandler(store: Store, pinReads: seq<u8>) returns (response: PinReadResponse)
    ensures |response.pinReads| == |pinReads|
    ensures forall i :: 0 <= i < |pinReads| ==>
              response.pinReads[i].pinNum == pinReads[i] &&
              response.pinReads[i].state == ReadValue(store.slots, pinReads[i])
    ensures store.Valid() ==> forall i :: 0 <= i < |pinReads| ==>
              response.pinReads[i].state == LoadOr0(store.slots, pinReads[i], SlotPins)
    ensures response.success
  {
    var items: seq<PinReadItem> := [];
    for i := 0 to |pinReads|
      invariant |items| == i
      invariant forall k :: 0 <= k < i ==>
                  items[k].pinNum == pinReads[k] && items[k].state == ReadValue(store.slots, pinReads[k])
    {
      var pinNum := pinReads[i];
      var state: u32 := 0;
      if pinNum in SlotPins {
        state := store.Load(pinNum);
      }
      items := items + [PinReadItem(pinNum, AsI32(state))];
    }
    response := PinReadResponse(items, true);
    if store.Valid() {
      forall i | 0 <= i < |pinReads| ensures items[i].state == LoadOr0(store.slots, pinReads[i], SlotPins) {
        ReadValueIsSlot(store.slots, pinReads[i]);
      }
    }
  }

  /** With the slots in their firmware bounds the `i32` cast never changes a
      value: a read reports the slot of any of the six pins (the four
      writable ones and the two analog ones) and 0 for every other pin. */
  lemma ReadValueIsSlot(m: Slots, pin: u8)
    requires Bounded(m)
    ensures pin in SlotPins ==> ReadValue(m, pin) == m[pin]
    ensures pin !in SlotPins ==> ReadValue(m, pin) == 0
  {
    if pin in SlotPins {
      assert pin in CommandPins || pin in AdcPins;
    }
  }

  /** Read-after-write over HTTP: after a batch, reading a writable pin that
      the batch names reports the state of the batch's last entry for it. */
  lemma ReadAfterWrite(m: Slots, pinWrites: seq<PinWriteItem>, pin: u8)
    requires Bounded(m)
    requires pin in CommandPins
    requires exists k :: 0 <= k < |pinWrites| && pinWrites[k].pinNum == pin
    ensures exists k :: 0 <= k < |pinWrites| && pinWrites[k].pinNum == pin &&
              ReadValue(ApplyBatch(m, pinWrites), pin) == pinWrites[k].state &&
              forall j :: k < j < |pinWrites| ==> pinWrites[j].pinNum != pin
  {
    BatchLastWriteWins(m, pinWrites, pin);
    BatchBounded(m, pinWrites);
    ReadValueIsSlot(ApplyBatch(m, pinWrites), pin);
  }

  /** Both transports apply a batch identically: a decoded batch written to
      the wireless characteristic leaves the slots as the HTTP write handler
      leaves them from the same slots, and is acknowledged once. */
  lemma TransportEquivalence(m: Slots, pinWrites: seq<PinWriteItem>)
    ensures Ble.HandleEvents(m, [Ble.Gatt(Ble.Write(Ble.PinRequest(pinWrites)))], 0) ==
              Ble.EventsResult(ApplyBatch(m, pinWrites), Ble.Listening, 1)
  {
    var events := [Ble.Gatt(Ble.Write(Ble.PinRequest(pinWrites)))];
    assert events[1..] == [];
  }

  /** With one set of slots behind both transports: writing
      `{"pin_writes":[{"pin_num":14,"state":100}]}` over the wireless link,
      then reading pins 14 and 32 over HTTP, reports 100 for pin 14 and the
      last sampled conversion for pin 32. */
  lemma WriteOverBleReadOverHttp(m: Slots)
    requires Bounded(m)
    ensures var after := Ble.HandleEvents(m, [Ble.Gatt(Ble.Write(Ble.PinRequest([PinWriteItem(14, 100)])))], 0).slots;
            ReadValue(after, 14) == 100 && ReadValue(after, 32) == m[32]
  {
    var ws := [PinWriteItem(14, 100)];
    TransportEquivalence(m, ws);
    var after := ApplyBatch(m, ws);
    BatchLastWriteWins(m, ws, 14);
    BatchKeepsAdcSlots(m, ws);
    BatchBounded(m, ws);
    ReadValueIsSlot(after, 14);
    ReadValueIsSlot(after, 32);
  }
}
