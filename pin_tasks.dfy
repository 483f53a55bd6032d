/** One pass of each of the four periodic pin tasks: the body of the `for
    item in items.iter_mut()` loop, between two 500 ms timer waits. Levels,
    conversion results and the channel's maximum duty are hardware inputs
    and arrive as parameters; the levels driven and the duties programmed are
    returned in item order. */
module PinTasks {
  import opened Types
  import opened PinStore
  import opened Commands

  datatype BasicWritePinTaskItem = BasicWritePinTaskItem(pinNum: u8, pin: Gpio)
  /** A PWM item: its pin and the LEDC channel bound to it. */
  datatype PwmWritePinTaskItem = PwmWritePinTaskItem(pinNum: u8, channel: nat)
  datatype BasicReadPinTaskItem = BasicReadPinTaskItem(pinNum: u8, pin: Gpio)
  /** An analog pin configured on ADC1 (`AdcPin<GPIOnn, ADC1>`). */
  datatype AdcPin = AdcPin(gpio: Gpio)
  datatype AdcReadPinTaskItem = AdcReadPinTaskItem(pinNum: u8, gpio35: Option<AdcPin>, gpio32: Option<AdcPin>)

  // ---------------------------------------------------------------- output

  /** The level the output driver sets for a slot value. */
  function DriveLevel(state: u32): (l: Level)
    ensures l == High <==> state == 100
  {
    if state == 100 then High else Low
  }

  /** One pass of `basic_write_pin_task`: returns the level set on each item's
      pin. A pin is driven High exactly when its slot holds 100; a pin number
      without an arm reads as 0 and is driven Low. */
  method BasicWritePass(store: Store, items: seq<BasicWritePinTaskItem>) returns (levels: seq<Level>)
    ensures |levels| == |items|
    ensures forall i :: 0 <= i < |items| ==>
              (levels[i] == High <==> items[i].pinNum in CommandPins && store.slots[items[i].pinNum] == 100)
  {
    levels := [];
    for i := 0 to |items|
      invariant |levels| == i
      invariant forall k :: 0 <= k < i ==>
                  (levels[k] == High <==> items[k].pinNum in CommandPins && store.slots[items[k].pinNum] == 100)
    {
      var pinNum := items[i].pinNum;
      var state: u32 := 0;
      if pinNum in CommandPins {
        state := store.Load(pinNum);
      }
      levels := levels + [DriveLevel(state)];
    }
  }

  /** Round trip from a command to the output pin: after a batch whose last
      entry for a writable pin carries `state`, the next driver pass sets
      that pin High exactly when `state` is 100. */
  lemma CommandDrivesOutput(m: Slots, pinWrites: seq<PinWriteItem>, k: nat)
    requires k < |pinWrites| && pinWrites[k].pinNum in CommandPins
    requires forall j :: k < j < |pinWrites| ==> pinWrites[j].pinNum != pinWrites[k].pinNum
    ensures DriveLevel(ApplyBatch(m, pinWrites)[pinWrites[k].pinNum]) == High <==> pinWrites[k].state == 100
  {
    var p := pinWrites[k].pinNum;
    BatchLastWriteWins(m, pinWrites, p);
    var k' :| 0 <= k' < |pinWrites| && pinWrites[k'].pinNum == p && ApplyBatch(m, pinWrites)[p] == pinWrites[k'].state &&
              forall j :: k' < j < |pinWrites| ==> pinWrites[j].pinNum != p;
    assert k' == k;
  }

  // ------------------------------------------------------------------- PWM

  /** `(state as u32 * max_duty) / 100` with the `u32` product wrapping, then
      truncated by `as u16`. */
  function PwmDuty(state: u32, maxDuty: u16): (duty: u16)
    ensures state == 0 ==> duty == 0
    ensures state == 100 ==> duty == maxDuty
  {
    ((state * maxDuty) % 0x1_0000_0000 / 100) % 0x1_0000
  }

  /** Multiplying by a non-negative factor keeps order. */
  lemma MulLeft(a: nat, b: nat, c: nat)
    requires a <= b
    ensures a * c <= b * c
  {
    var k := b - a;
    assert b * c == a * c + k * c;
  }

  /** Dividing by 100 keeps order. */
  lemma DivLeft(x: nat, y: nat)
    requires x <= y
    ensures x / 100 <= y / 100
  {
  }

  /** For a percentage in 0..=100 the duty is the exact scaled value
      `floor(state * max / 100)`: 0 at 0 %, the maximum at 100 %, never above
      the maximum. */
  lemma PwmDutyScales(state: u32, maxDuty: u16)
    requires state <= 100
    ensures PwmDuty(state, maxDuty) == state * maxDuty / 100
    ensures PwmDuty(state, maxDuty) <= maxDuty
    ensures state == 0 ==> PwmDuty(state, maxDuty) == 0
    ensures state == 100 ==> PwmDuty(state, maxDuty) == maxDuty
  {
    var product := state * maxDuty;
    MulLeft(state, 100, maxDuty);
    assert product <= 100 * maxDuty < 0x1_0000_0000;
    assert product % 0x1_0000_0000 == product;
    DivLeft(product, 100 * maxDuty);
    assert product / 100 <= maxDuty;
    assert (product / 100) % 0x1_0000 == product / 100;
  }

  /** Any slot value a command can hold (below 256) never wraps the `u32`
      product, whatever the channel's maximum. */
  lemma PwmNoWrap(state: u32, maxDuty: u16)
    requires state < 0x100
    ensures state * maxDuty < 0x1_0000_0000
    ensures PwmDuty(state, maxDuty) == (state * maxDuty / 100) % 0x1_0000
  {
    MulLeft(state, 0xFF, maxDuty);
    var product := state * maxDuty;
    assert product < 0x1_0000_0000;
    assert product % 0x1_0000_0000 == product;
  }

  /** A higher percentage never programs a smaller duty. */
  lemma PwmDutyMonotone(s1: u32, s2: u32, maxDuty: u16)
    requires s1 <= s2 <= 100
    ensures PwmDuty(s1, maxDuty) <= PwmDuty(s2, maxDuty)
  {
    PwmDutyScales(s1, maxDuty);
    PwmDutyScales(s2, maxDuty);
    MulLeft(s1, s2, maxDuty);
    DivLeft(s1 * maxDuty, s2 * maxDuty);
  }

  /** One pass of `pwm_write_pin_task`: returns the duty handed to
      `set_duty_cycle` for each item (a failed call is swallowed and does not
      change the pass). */
  method PwmWritePass(store: Store, items: seq<PwmWritePinTaskItem>, maxDuty: u16) returns (duties: seq<u16>)
    ensures |duties| == |items|
    ensures forall i :: 0 <= i < |items| ==>
              duties[i] == PwmDuty(LoadOr0(store.slots, items[i].pinNum, CommandPins), maxDuty)
  {
    duties := [];
    for i := 0 to |items|
      invariant |duties| == i
      invariant forall k :: 0 <= k < i ==>
                  duties[k] == PwmDuty(LoadOr0(store.slots, items[k].pinNum, CommandPins), maxDuty)
    {
      var pinNum := items[i].pinNum;
      var state: u32 := 0;
      if pinNum in CommandPins {
        state := store.Load(pinNum);
      }
      duties := duties + [PwmDuty(state, maxDuty)];
    }
  }

  // ----------------------------------------------------------------- input

  /** The value the input sampler stores for a level. */
  function LevelState(l: Level): (v: u8)
    ensures v == 0 || v == 100
    ensures DriveLevel(v as u32) == l
  {
    if l == High then 100 else 0
  }

  /** The stores one pass of the input sampler issues, in item order. */
  function SamplerWrites(items: seq<BasicReadPinTaskItem>, levels: seq<Level>): (ws: seq<SlotWrite>)
    requires |levels| == |items|
    ensures |ws| == |items|
  {
    seq(|items|, i requires 0 <= i < |items| => SlotWrite(items[i].pinNum, LevelState(levels[i])))
  }

  /** One pass of `basic_read_pin_task`, given the level each pin reads. */
  method BasicReadPass(store: Store, items: seq<BasicReadPinTaskItem>, levels: seq<Level>)
    requires |levels| == |items|
    requires store.Valid()
    modifies store
    ensures store.slots == ApplyWrites(old(store.slots), SamplerWrites(items, levels), CommandPins)
    ensures store.Valid()
  {
    ghost var ws := SamplerWrites(items, levels);
    ApplyWritesBounded(store.slots, ws, CommandPins);
    for i := 0 to |items|
      invariant ApplyWrites(store.slots, ws[i..], CommandPins) == ApplyWrites(old(store.slots), ws, CommandPins)
    {
      assert ws[i..][0] == ws[i] && ws[i..][1..] == ws[i + 1..];
      var state := LevelState(levels[i]);
      if items[i].pinNum in CommandPins {
        store.Put(items[i].pinNum, state);
      }
    }
  }

  /** The sampler writes 100 for High and 0 for Low into each item's own
      slot (items name distinct pins, as the allocator guarantees), and
      leaves every slot it has no item for, and both analog slots, as they
      were. */
  lemma SamplerStoresLevels(m: Slots, items: seq<BasicReadPinTaskItem>, levels: seq<Level>)
    requires |levels| == |items|
    requires forall j, k :: 0 <= j < k < |items| ==> items[j].pinNum != items[k].pinNum
    ensures forall i :: 0 <= i < |items| && items[i].pinNum in CommandPins ==>
              ApplyWrites(m, SamplerWrites(items, levels), CommandPins)[items[i].pinNum] == LevelState(levels[i]) as u32
    ensures forall p :: p in SlotPins && (p !in CommandPins || forall k :: 0 <= k < |items| ==> items[k].pinNum != p) ==>
              ApplyWrites(m, SamplerWrites(items, levels), CommandPins)[p] == m[p]
    ensures Bounded(m) ==> Bounded(ApplyWrites(m, SamplerWrites(items, levels), CommandPins))
  {
    var ws := SamplerWrites(items, levels);
    forall i | 0 <= i < |items| && items[i].pinNum in CommandPins
      ensures ApplyWrites(m, ws, CommandPins)[items[i].pinNum] == LevelState(levels[i]) as u32
    {
      LastValueOfDistinct(ws, i);
      ApplyWritesAt(m, ws, CommandPins, items[i].pinNum);
    }
    forall p | p in SlotPins && (p !in CommandPins || forall k :: 0 <= k < |items| ==> items[k].pinNum != p)
      ensures ApplyWrites(m, ws, CommandPins)[p] == m[p]
    {
      ApplyWritesAt(m, ws, CommandPins, p);
    }
    if Bounded(m) {
      ApplyWritesBounded(m, ws, CommandPins);
    }
  }

  // ---------------------------------------------------------------- analog

  /** What one ADC item stores: `Some(v)` to store `v` into its slot, `None`
      when a failed conversion `continue`s past the store. An item whose
      handle is absent stores 0; a pin number other than 32 or 35 computes
      0, which the second `match` then drops. */
  function AdcSample(item: AdcReadPinTaskItem, reading: Option<u16>): (r: Option<u32>)
    ensures r.None? <==> HandleOf(item).Some? && reading.None?
    ensures HandleOf(item).None? ==> r == Some(0)
    ensures HandleOf(item).Some? && reading.Some? ==> r == Some(reading.value as u32)
  {
    if item.pinNum == 35 then
      if item.gpio35.None? then Some(0)
      else if reading.None? then None
      else Some(reading.value)
    else if item.pinNum == 32 then
      if item.gpio32.None? then Some(0)
      else if reading.None? then None
      else Some(reading.value)
    else Some(0)
  }

  /** The stores one pass of the ADC sampler issues, in item order. */
  function AdcWrites(items: seq<AdcReadPinTaskItem>, readings: seq<Option<u16>>): (ws: seq<SlotWrite>)
    requires |readings| == |items|
    ensures forall k :: 0 <= k < |ws| ==> Fits(ws[k]) || ws[k].pin !in SlotPins
    decreases |items|
  {
    if items == [] then []
    else
      var rest := AdcWrites(items[1..], readings[1..]);
      match AdcSample(items[0], readings[0])
      case None => rest
      case Some(v) => [SlotWrite(items[0].pinNum, v)] + rest
  }

  /** The handle an item uses for its own pin. */
  function HandleOf(item: AdcReadPinTaskItem): Option<AdcPin>
  {
    if item.pinNum == 35 then item.gpio35 else if item.pinNum == 32 then item.gpio32 else None
  }

  /** Reference definition: what the last item for pin `p` stores, `None`
      when no item for `p` stores anything. */
  function LastAdcSample(items: seq<AdcReadPinTaskItem>, readings: seq<Option<u16>>, p: u8): (r: Option<u32>)
    requires |readings| == |items|
    ensures (forall k :: 0 <= k < |items| ==> items[k].pinNum != p) ==> r.None?
    decreases |items|
  {
    if items == [] then None
    else
      var rest := LastAdcSample(items[1..], readings[1..], p);
      if rest.Some? then rest
      else if items[0].pinNum == p then AdcSample(items[0], readings[0])
      else None
  }

  lemma {:induction false} AdcWritesLast(items: seq<AdcReadPinTaskItem>, readings: seq<Option<u16>>, p: u8)
    requires |readings| == |items|
    ensures LastValue(AdcWrites(items, readings), p) == LastAdcSample(items, readings, p)
    decreases |items|
  {
    if items != [] {
      AdcWritesLast(items[1..], readings[1..], p);
      var rest := AdcWrites(items[1..], readings[1..]);
      match AdcSample(items[0], readings[0])
      case None =>
      case Some(v) =>
        var ws := [SlotWrite(items[0].pinNum, v)] + rest;
        assert ws[1..] == rest;
    }
  }

  lemma {:induction false} LastAdcSampleOfDistinct(items: seq<AdcReadPinTaskItem>, readings: seq<Option<u16>>, i: nat)
    requires |readings| == |items| && i < |items|
    requires forall j, k :: 0 <= j < k < |items| ==> items[j].pinNum != items[k].pinNum
    ensures LastAdcSample(items, readings, items[i].pinNum) == AdcSample(items[i], readings[i])
    decreases |items|
  {
    if i > 0 {
      LastAdcSampleOfDistinct(items[1..], readings[1..], i - 1);
    } else {
      assert forall k :: 0 <= k < |items[1..]| ==> items[1..][k].pinNum != items[0].pinNum by {
        forall k | 0 <= k < |items[1..]| ensures items[1..][k].pinNum != items[0].pinNum {
          assert items[1..][k] == items[k + 1];
        }
      }
    }
  }

  /** After one ADC pass over items naming distinct pins: a successful
      conversion's raw value is in its pin's slot; a failed conversion left
      the slot as it was; an item without its handle stored 0. No slot other
      than 32 and 35 changes, and every slot stays within its bounds. */
  lemma AdcPassStores(m: Slots, items: seq<AdcReadPinTaskItem>, readings: seq<Option<u16>>)
    requires |readings| == |items|
    requires forall j, k :: 0 <= j < k < |items| ==> items[j].pinNum != items[k].pinNum
    ensures forall i :: 0 <= i < |items| && items[i].pinNum in AdcPins ==>
              var r := ApplyWrites(m, AdcWrites(items, readings), AdcPins)[items[i].pinNum];
              (HandleOf(items[i]).None? ==> r == 0) &&
              (HandleOf(items[i]).Some? && readings[i].Some? ==> r == readings[i].value) &&
              (HandleOf(items[i]).Some? && readings[i].None? ==> r == m[items[i].pinNum])
    ensures forall p :: p in SlotPins && p !in AdcPins ==> ApplyWrites(m, AdcWrites(items, readings), AdcPins)[p] == m[p]
    ensures forall p :: p in SlotPins && (forall k :: 0 <= k < |items| ==> items[k].pinNum != p) ==>
              ApplyWrites(m, AdcWrites(items, readings), AdcPins)[p] == m[p]
    ensures Bounded(m) ==> Bounded(ApplyWrites(m, AdcWrites(items, readings), AdcPins))
  {
    var ws := AdcWrites(items, readings);
    forall i | 0 <= i < |items| && items[i].pinNum in AdcPins
      ensures var r := ApplyWrites(m, ws, AdcPins)[items[i].pinNum];
              (HandleOf(items[i]).None? ==> r == 0) &&
              (HandleOf(items[i]).Some? && readings[i].Some? ==> r == readings[i].value) &&
              (HandleOf(items[i]).Some? && readings[i].None? ==> r == m[items[i].pinNum])
    {
      ApplyWritesAt(m, ws, AdcPins, items[i].pinNum);
      AdcWritesLast(items, readings, items[i].pinNum);
      LastAdcSampleOfDistinct(items, readings, i);
    }
    forall p | p in SlotPins && p !in AdcPins ensures ApplyWrites(m, ws, AdcPins)[p] == m[p] {
      ApplyWritesAt(m, ws, AdcPins, p);
    }
    forall p | p in SlotPins && (forall k :: 0 <= k < |items| ==> items[k].pinNum != p)
      ensures ApplyWrites(m, ws, AdcPins)[p] == m[p]
    {
      ApplyWritesAt(m, ws, AdcPins, p);
      AdcWritesLast(items, readings, p);
    }
    if Bounded(m) {
      var r := ApplyWrites(m, ws, AdcPins);
      forall p | p in AdcPins ensures r[p] < 0x1_0000 {
        ApplyWritesAt(m, ws, AdcPins, p);
        AdcWritesLast(items, readings, p);
        LastAdcSampleBound(items, readings, p);
      }
      forall p | p in CommandPins ensures r[p] < 0x100 {
        ApplyWritesAt(m, ws, AdcPins, p);
      }
    }
  }

  lemma {:induction false} LastAdcSampleBound(items: seq<AdcReadPinTaskItem>, readings: seq<Option<u16>>, p: u8)
    requires |readings| == |items|
    ensures LastAdcSample(items, readings, p).Some? ==> LastAdcSample(items, readings, p).value < 0x1_0000
    decreases |items|
  {
    if items != [] {
      LastAdcSampleBound(items[1..], readings[1..], p);
    }
  }

  lemma {:induction false} AdcWritesSplit(items: seq<AdcReadPinTaskItem>, readings: seq<Option<u16>>, i: nat)
    requires |readings| == |items| && i <= |items|
    ensures AdcWrites(items, readings) == AdcWrites(items[..i], readings[..i]) + AdcWrites(items[i..], readings[i..])
    decreases i
  {
    if i > 0 {
      AdcWritesSplit(items[1..], readings[1..], i - 1);
      assert items[..i][1..] == items[1..][..i - 1] && readings[..i][1..] == readings[1..][..i - 1];
      assert items[1..][i - 1..] == items[i..] && readings[1..][i - 1..] == readings[i..];
    }
  }

  /** A failed conversion `continue`s: the item contributes no store, and
      the items before and after it issue exactly the stores they would
      issue without it. */
  lemma AdcFailureSkipsOnlyItself(items: seq<AdcReadPinTaskItem>, readings: seq<Option<u16>>, i: nat)
    requires |readings| == |items| && i < |items|
    requires HandleOf(items[i]).Some? && readings[i].None?
    ensures AdcWrites(items, readings) ==
              AdcWrites(items[..i], readings[..i]) + AdcWrites(items[i + 1..], readings[i + 1..])
  {
    AdcWritesSplit(items, readings, i);
    assert items[i..][1..] == items[i + 1..] && readings[i..][1..] == readings[i + 1..];
  }

  /** One pass of `adc_read_pin_task` over the task's item slice. The handle
      is `take()`n for the conversion and put back on success and on
      failure alike, so the items are as they were; the slots change as the
      issued stores say. */
  method AdcReadPass(store: Store, items: array<AdcReadPinTaskItem>, readings: seq<Option<u16>>)
    requires |readings| == items.Length
    requires store.Valid()
    modifies store, items
    ensures items[..] == old(items[..])
    ensures store.slots == ApplyWrites(old(store.slots), AdcWrites(old(items[..]), readings), AdcPins)
    ensures store.Valid()
  {
    ghost var its := items[..];
    ApplyWritesBounded(store.slots, AdcWrites(its, readings), AdcPins);
    for i := 0 to items.Length
      invariant items[..] == its
      invariant ApplyWrites(store.slots, AdcWrites(its[i..], readings[i..]), AdcPins)
                == ApplyWrites(old(store.slots), AdcWrites(its, readings), AdcPins)
    {
      assert its[i..][0] == its[i] && its[i..][1..] == its[i + 1..];
      assert readings[i..][0] == readings[i] && readings[i..][1..] == readings[i + 1..];
      var state: u32 := 0;
      var pinNum := items[i].pinNum;
      if pinNum == 35 {
        var handle := items[i].gpio35;
        items[i] := items[i].(gpio35 := None);
        if handle.Some? {
          if readings[i].None? {
            items[i] := items[i].(gpio35 := handle);
            continue;
          }
          items[i] := items[i].(gpio35 := handle);
          state := readings[i].value;
        } else {
          state := 0;
        }
      } else if pinNum == 32 {
        var handle := items[i].gpio32;
        items[i] := items[i].(gpio32 := None);
        if handle.Some? {
          if readings[i].None? {
            items[i] := items[i].(gpio32 := handle);
            continue;
          }
          items[i] := items[i].(gpio32 := handle);
          state := readings[i].value;
        } else {
          state := 0;
        }
      }
      if pinNum in AdcPins {
        store.Put(pinNum, state);
      }
    }
  }
}
