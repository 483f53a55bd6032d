/** The shared pin-state store: one 32-bit slot per wired pin (the
    `GPIOnn_STATE` atomics), modelled as a single-threaded map. */
module PinStore {
  import opened Types

  /** Pins driven or sampled as digital/PWM pins; the only slots the command
      paths may write. */
  const CommandPins: set<u8> := {14, 26, 25, 33}
  /** Pins sampled by the analog converter. */
  const AdcPins: set<u8> := {32, 35}
  /** Every pin that has a slot. */
  const SlotPins: set<u8> := CommandPins + AdcPins

  /** The six slots, keyed by pin number. */
  type Slots = m: map<u8, u32> | m.Keys == SlotPins
    witness map p | p in SlotPins :: 0

  /** Value of the slot of `pin` as seen by a call site whose `match` covers
      the pins `visible`; any other pin number reads as 0. */
  function LoadOr0(m: Slots, pin: u8, visible: set<u8>): (v: u32)
    ensures pin !in visible || pin !in SlotPins ==> v == 0
    ensures pin in visible && pin in SlotPins ==> v == m[pin]
  {
    if pin in visible && pin in m then m[pin] else 0
  }

  /** Store `v` into the slot of `pin` when a call site's `match` has an arm
      for it (`writable`); every other pin number is a no-op. */
  function StoreIf(m: Slots, pin: u8, v: u32, writable: set<u8>): (r: Slots)
    ensures pin in writable && pin in SlotPins ==> r[pin] == v
    ensures forall q :: q in SlotPins && (q != pin || pin !in writable) ==> r[q] == m[q]
  {
    if pin in writable && pin in m then m[pin := v] else m
  }

  /** Slot values the firmware can produce: digital/PWM slots hold a `u8`
      command or a sampled 0/100, analog slots a 16-bit conversion. */
  ghost predicate Bounded(m: Slots)
  {
    (forall p :: p in CommandPins ==> m[p] < 0x100) &&
    (forall p :: p in AdcPins ==> m[p] < 0x1_0000)
  }

  /** All six slots start at 0. */
  function InitialSlots(): (m: Slots)
    ensures forall p :: p in SlotPins ==> m[p] == 0
    ensures Bounded(m)
  {
    map p | p in SlotPins :: 0
  }

  /** One store into a slot, as issued by a pass of a pin task or by a
      command batch. */
  datatype SlotWrite = SlotWrite(pin: u8, value: u32)

  /** Apply `ws` in order; a write whose pin is not in `writable` falls into
      the call site's `_ => {}` arm and changes nothing. */
  function ApplyWrites(m: Slots, ws: seq<SlotWrite>, writable: set<u8>): Slots
    decreases |ws|
  {
    if ws == [] then m
    else ApplyWrites(StoreIf(m, ws[0].pin, ws[0].value, writable), ws[1..], writable)
  }

  /** Reference definition: the value of the last write in `ws` aimed at `p`. */
  function LastValue(ws: seq<SlotWrite>, p: u8): (r: Option<u32>)
    ensures r.None? <==> forall k :: 0 <= k < |ws| ==> ws[k].pin != p
    decreases |ws|
  {
    if ws == [] then None
    else
      var rest := LastValue(ws[1..], p);
      if rest.Some? then rest
      else if ws[0].pin == p then Some(ws[0].value)
      else None
  }

  /** Applying a sequence of writes leaves every slot holding the last value
      written to it, when its pin is writable, and its old value otherwise. */
  lemma {:induction false} ApplyWritesAt(m: Slots, ws: seq<SlotWrite>, writable: set<u8>, p: u8)
    requires p in SlotPins
    ensures ApplyWrites(m, ws, writable)[p] ==
              if p in writable && LastValue(ws, p).Some? then LastValue(ws, p).value else m[p]
    decreases |ws|
  {
    if ws != [] {
      ApplyWritesAt(StoreIf(m, ws[0].pin, ws[0].value, writable), ws[1..], writable, p);
    }
  }

  /** When no two writes share a pin, each write's own value is the last one
      for its pin. */
  lemma {:induction false} LastValueOfDistinct(ws: seq<SlotWrite>, i: nat)
    requires i < |ws|
    requires forall j, k :: 0 <= j < k < |ws| ==> ws[j].pin != ws[k].pin
    ensures LastValue(ws, ws[i].pin) == Some(ws[i].value)
    decreases |ws|
  {
    if i > 0 {
      LastValueOfDistinct(ws[1..], i - 1);
    } else {
      assert forall k :: 0 <= k < |ws[1..]| ==> ws[1..][k].pin != ws[0].pin by {
        forall k | 0 <= k < |ws[1..]| ensures ws[1..][k].pin != ws[0].pin {
          assert ws[1..][k] == ws[k + 1];
        }
      }
    }
  }

  /** The reference value is the value of a write to `p` that no later
      write to `p` follows. */
  lemma {:induction false} LastValueIsLast(ws: seq<SlotWrite>, p: u8)
    ensures LastValue(ws, p).Some? ==>
              exists k :: 0 <= k < |ws| && ws[k].pin == p && ws[k].value == LastValue(ws, p).value &&
                forall j :: k < j < |ws| ==> ws[j].pin != p
    decreases |ws|
  {
    if ws != [] {
      LastValueIsLast(ws[1..], p);
      var rest := LastValue(ws[1..], p);
      if rest.Some? {
        var k :| 0 <= k < |ws[1..]| && ws[1..][k].pin == p && ws[1..][k].value == rest.value &&
                 forall j :: k < j < |ws[1..]| ==> ws[1..][j].pin != p;
        assert ws[k + 1] == ws[1..][k];
        forall j | k + 1 < j < |ws| ensures ws[j].pin != p {
          assert ws[j] == ws[1..][j - 1];
        }
      } else if ws[0].pin == p {
        forall j | 0 < j < |ws| ensures ws[j].pin != p {
          assert ws[j] == ws[1..][j - 1];
        }
      }
    }
  }

  /** Replaying the same writes a second time changes nothing. */
  lemma ApplyWritesIdempotent(m: Slots, ws: seq<SlotWrite>, writable: set<u8>)
    ensures ApplyWrites(ApplyWrites(m, ws, writable), ws, writable) == ApplyWrites(m, ws, writable)
  {
    var once := ApplyWrites(m, ws, writable);
    var twice := ApplyWrites(once, ws, writable);
    forall p | p in SlotPins ensures twice[p] == once[p] {
      ApplyWritesAt(m, ws, writable, p);
      ApplyWritesAt(once, ws, writable, p);
    }
  }

  /** A write the firmware can issue: within a `u8` for digital/PWM slots and
      within a `u16` for analog slots. */
  predicate Fits(w: SlotWrite)
  {
    (w.pin in CommandPins ==> w.value < 0x100) && (w.pin in AdcPins ==> w.value < 0x1_0000)
  }

  /** Writes that fit keep every slot within the firmware's bounds. */
  lemma {:induction false} ApplyWritesBounded(m: Slots, ws: seq<SlotWrite>, writable: set<u8>)
    requires Bounded(m)
    requires forall k :: 0 <= k < |ws| ==> Fits(ws[k])
    ensures Bounded(ApplyWrites(m, ws, writable))
    decreases |ws|
  {
    if ws != [] {
      ApplyWritesBounded(StoreIf(m, ws[0].pin, ws[0].value, writable), ws[1..], writable);
    }
  }

  /** The store shared by the pin tasks and the transports. */
  class Store {
    var slots: Slots

    ghost predicate Valid()
      reads this
    {
      Bounded(slots)
    }

    constructor ()
      ensures Valid()
      ensures slots == InitialSlots()
    {
      slots := InitialSlots();
    }

    /** `GPIOnn_STATE.load`: a relaxed atomic load of one slot. */
    method Load(pin: u8) returns (v: u32)
      requires pin in SlotPins
      ensures v == slots[pin]
    {
      v := slots[pin];
    }

    /** `GPIOnn_STATE.store`: a relaxed atomic store into one slot. */
    method Put(pin: u8, v: u32)
      requires pin in SlotPins
      modifies this
      ensures slots == old(slots)[pin := v]
      ensures old(Valid()) && Fits(SlotWrite(pin, v)) ==> Valid()
    {
      slots := slots[pin := v];
    }
  }
}
