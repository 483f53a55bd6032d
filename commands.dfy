/** A decoded pin-write batch (`PinRequest { pin_writes }`) and its effect
    on the store. The wireless write characteristic and the network
    `/write-pins` handler decode the same record and apply it with the same
    four-arm `match`. */
module Commands {
  import opened Types
  import opened PinStore

  datatype PinWriteItem = PinWriteItem(pinNum: u8, state: u8)

  /** The stores a batch issues: `state as u32` into the entry's pin, in
      entry order. */
  function BatchWrites(ws: seq<PinWriteItem>): (r: seq<SlotWrite>)
    ensures |r| == |ws|
  {
    seq(|ws|, i requires 0 <= i < |ws| => SlotWrite(ws[i].pinNum, ws[i].state))
  }

  /** The store after a batch: only pins 14, 26, 25 and 33 can be written. */
  function ApplyBatch(m: Slots, ws: seq<PinWriteItem>): Slots
  {
    ApplyWrites(m, BatchWrites(ws), CommandPins)
  }

  /** Entries are applied in order, so for a writable pin the last entry
      naming it wins; a pin no entry names, an unknown pin and the analog
      pins 32 and 35 keep their values. */
  lemma BatchLastWriteWins(m: Slots, ws: seq<PinWriteItem>, p: u8)
    requires p in SlotPins
    ensures p in CommandPins && (exists k :: 0 <= k < |ws| && ws[k].pinNum == p) ==>
              exists k :: 0 <= k < |ws| && ws[k].pinNum == p && ApplyBatch(m, ws)[p] == ws[k].state &&
                forall j :: k < j < |ws| ==> ws[j].pinNum != p
    ensures p !in CommandPins || (forall k :: 0 <= k < |ws| ==> ws[k].pinNum != p) ==>
              ApplyBatch(m, ws)[p] == m[p]
  {
    var bw := BatchWrites(ws);
    ApplyWritesAt(m, bw, CommandPins, p);
    LastValueIsLast(bw, p);
    if p in CommandPins && exists k :: 0 <= k < |ws| && ws[k].pinNum == p {
      var k0 :| 0 <= k0 < |ws| && ws[k0].pinNum == p;
      assert bw[k0].pin == p;
      var k :| 0 <= k < |bw| && bw[k].pin == p && bw[k].value == LastValue(bw, p).value &&
               forall j :: k < j < |bw| ==> bw[j].pin != p;
      assert ws[k].pinNum == p && ApplyBatch(m, ws)[p] == ws[k].state;
      assert forall j :: k < j < |ws| ==> ws[j].pinNum != p by {
        forall j | k < j < |ws| ensures ws[j].pinNum != p {
          assert bw[j].pin == ws[j].pinNum;
        }
      }
    }
    if forall k :: 0 <= k < |ws| ==> ws[k].pinNum != p {
      assert forall k :: 0 <= k < |bw| ==> bw[k].pin != p;
    }
  }

  /** The command path never writes the analog slots. */
  lemma BatchKeepsAdcSlots(m: Slots, ws: seq<PinWriteItem>)
    ensures ApplyBatch(m, ws)[32] == m[32] && ApplyBatch(m, ws)[35] == m[35]
  {
    ApplyWritesAt(m, BatchWrites(ws), CommandPins, 32);
    ApplyWritesAt(m, BatchWrites(ws), CommandPins, 35);
  }

  /** Sending the same batch twice leaves the store as sending it once. */
  lemma BatchIdempotent(m: Slots, ws: seq<PinWriteItem>)
    ensures ApplyBatch(ApplyBatch(m, ws), ws) == ApplyBatch(m, ws)
  {
    ApplyWritesIdempotent(m, BatchWrites(ws), CommandPins);
  }

  /** A batch keeps every slot within the firmware's bounds. */
  lemma BatchBounded(m: Slots, ws: seq<PinWriteItem>)
    requires Bounded(m)
    ensures Bounded(ApplyBatch(m, ws))
  {
    ApplyWritesBounded(m, BatchWrites(ws), CommandPins);
  }
}
