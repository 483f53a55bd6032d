/** The pin-role allocator at start-up: a pool of `Option` GPIO handles is
    consumed by four loops in a fixed order (basic write, basic read, PWM,
    ADC); each loop keeps a configured pin only when its handle is still in
    the pool and the role can use that pin. */
module Allocator {
  import opened Types
  import opened PinStore
  import opened PinTasks

  /** The start-up configuration record. */
  datatype Config = Config(
    bluetoothName: string,
    basicWritePinNums: seq<u8>,
    pwmWritePinNums: seq<u8>,
    basicReadPinNums: seq<u8>,
    adcReadPinNums: seq<u8>)

  /** The eight LEDC high-speed channels, `CHANNELS[0..8]`. */
  const Channels: seq<nat> := [0, 1, 2, 3, 4, 5, 6, 7]

  /** What start-up hands on: one item list per task, and the pin list the
      wireless layer reports analog telemetry for. */
  datatype Allocation = Allocation(
    basicWrite: seq<BasicWritePinTaskItem>,
    basicRead: seq<BasicReadPinTaskItem>,
    pwmWrite: seq<PwmWritePinTaskItem>,
    adcRead: seq<AdcReadPinTaskItem>,
    bleAdcPinNums: seq<u8>)

  // ------------------------------------------------------- specification

  /** The pins one role loop keeps from its configured list `req`, given the
      pins `free` whose handles are still in the pool: in list order, each
      pin the role can wire (`wirable`) whose handle has not been taken,
      including by an earlier entry of the same list. */
  function Claimed(req: seq<u8>, wirable: set<u8>, free: set<u8>): (r: seq<u8>)
    decreases |req|
  {
    if req == [] then []
    else
      var prev := Claimed(req[..|req| - 1], wirable, free);
      var p := req[|req| - 1];
      if p in wirable && p in free && p !in prev then prev + [p] else prev
  }

  /** `xs` is `ys` with some entries removed, order kept. */
  ghost predicate IsSubsequence(xs: seq<u8>, ys: seq<u8>)
    decreases |ys|
  {
    xs == [] ||
    (ys != [] &&
      ((xs[|xs| - 1] == ys[|ys| - 1] && IsSubsequence(xs[..|xs| - 1], ys[..|ys| - 1])) ||
       IsSubsequence(xs, ys[..|ys| - 1])))
  }

  /** A role keeps exactly the configured pins it can wire whose handles are
      free. */
  lemma {:induction false} ClaimedMembers(req: seq<u8>, wirable: set<u8>, free: set<u8>, p: u8)
    ensures p in Claimed(req, wirable, free) <==> p in req && p in wirable && p in free
    decreases |req|
  {
    if req != [] {
      var init := req[..|req| - 1];
      ClaimedMembers(init, wirable, free, p);
      assert req == init + [req[|req| - 1]];
    }
  }

  /** A pin repeated in a role's list is kept only once. */
  lemma {:induction false} ClaimedDistinct(req: seq<u8>, wirable: set<u8>, free: set<u8>)
    ensures forall j, k :: 0 <= j < k < |Claimed(req, wirable, free)| ==>
              Claimed(req, wirable, free)[j] != Claimed(req, wirable, free)[k]
    decreases |req|
  {
    if req != [] {
      ClaimedDistinct(req[..|req| - 1], wirable, free);
    }
  }

  /** A role's kept pins are an order-preserving subsequence of its list. */
  lemma {:induction false} ClaimedSubsequence(req: seq<u8>, wirable: set<u8>, free: set<u8>)
    ensures IsSubsequence(Claimed(req, wirable, free), req)
    decreases |req|
  {
    if req != [] {
      var init := req[..|req| - 1];
      var prev := Claimed(init, wirable, free);
      ClaimedSubsequence(init, wirable, free);
      var r := Claimed(req, wirable, free);
      if r == prev {
        assert IsSubsequence(prev, init);
      } else {
        assert r[..|r| - 1] == prev;
      }
    }
  }

  /** The pins named in a list. */
  function Elems(xs: seq<u8>): set<u8>
  {
    set p | p in xs
  }

  lemma ElemsSnoc(xs: seq<u8>, x: u8)
    ensures Elems(xs + [x]) == Elems(xs) + {x}
  {
  }

  /** A role keeps only pins it can wire and whose handles are free. */
  lemma ClaimedWithin(req: seq<u8>, wirable: set<u8>, free: set<u8>)
    ensures Elems(Claimed(req, wirable, free)) <= wirable * free
  {
    forall p | p in Elems(Claimed(req, wirable, free)) ensures p in wirable * free {
      ClaimedMembers(req, wirable, free, p);
    }
  }

  /** A list with no pin twice names as many pins as it has entries. */
  lemma {:induction false} DistinctCard(xs: seq<u8>)
    requires forall j, k :: 0 <= j < k < |xs| ==> xs[j] != xs[k]
    ensures |Elems(xs)| == |xs|
    decreases |xs|
  {
    if xs != [] {
      var init := xs[..|xs| - 1];
      DistinctCard(init);
      assert xs == init + [xs[|xs| - 1]];
      ElemsSnoc(init, xs[|xs| - 1]);
    }
  }

  /** A subset is no larger than the set containing it. */
  lemma SubsetCard(a: set<u8>, b: set<u8>)
    requires a <= b
    ensures |a| <= |b|
  {
    assert b == a + (b - a);
    assert a * (b - a) == {};
  }

  /** Disjoint sets add up. */
  lemma DisjointCard(a: set<u8>, b: set<u8>)
    requires a * b == {}
    ensures |a + b| == |a| + |b|
  {
  }

  /** Only four pins can be wired as digital pins. */
  lemma CommandPinsCount()
    ensures |CommandPins| == 4
  {
    assert CommandPins == {14} + {26} + {25} + {33};
  }

  /** A role names as many distinct pins as it keeps entries, all of them
      wirable and free. */
  lemma ClaimedCard(req: seq<u8>, wirable: set<u8>, free: set<u8>)
    ensures |Elems(Claimed(req, wirable, free))| == |Claimed(req, wirable, free)|
    ensures Elems(Claimed(req, wirable, free)) <= wirable * free
  {
    ClaimedDistinct(req, wirable, free);
    DistinctCard(Claimed(req, wirable, free));
    ClaimedWithin(req, wirable, free);
  }

  /** A digital role keeps at most four pins. */
  lemma ClaimedAtMostFour(req: seq<u8>, free: set<u8>)
    ensures |Claimed(req, CommandPins, free)| <= 4
  {
    var c := Claimed(req, CommandPins, free);
    ClaimedDistinct(req, CommandPins, free);
    ClaimedWithin(req, CommandPins, free);
    DistinctCard(c);
    SubsetCard(Elems(c), CommandPins);
    CommandPinsCount();
  }

  /** The pins of each role, as the four loops in order decide them. */
  datatype Plan = Plan(write: seq<u8>, read: seq<u8>, pwm: seq<u8>, adc: seq<u8>)

  /** Reference definition of the four role loops' outcome: each digital
      role claims from the pins the earlier roles left free, and the
      analog role from all six. */
  function RolePlan(cfg: Config): Plan
  {
    var write := Claimed(cfg.basicWritePinNums, CommandPins, SlotPins);
    var read := Claimed(cfg.basicReadPinNums, CommandPins, SlotPins - Elems(write));
    var pwm := Claimed(cfg.pwmWritePinNums, CommandPins, SlotPins - Elems(write) - Elems(read));
    var adc := Claimed(cfg.adcReadPinNums, AdcPins, SlotPins);
    Plan(write, read, pwm, adc)
  }

  /** Exclusivity and precedence: a pin is kept by at most one role. It goes
      to the first of basic write, basic read, PWM whose list names it (when
      it is one of 14, 26, 25, 33); only 32 and 35 can be analog inputs. */
  lemma PlanPrecedence(cfg: Config, p: u8)
    ensures p in RolePlan(cfg).write <==> p in cfg.basicWritePinNums && p in CommandPins
    ensures p in RolePlan(cfg).read <==>
              p in cfg.basicReadPinNums && p in CommandPins && p !in cfg.basicWritePinNums
    ensures p in RolePlan(cfg).pwm <==>
              p in cfg.pwmWritePinNums && p in CommandPins && p !in cfg.basicWritePinNums && p !in cfg.basicReadPinNums
    ensures p in RolePlan(cfg).adc <==> p in cfg.adcReadPinNums && p in AdcPins
    ensures !(p in RolePlan(cfg).write && p in RolePlan(cfg).read)
    ensures !(p in RolePlan(cfg).write && p in RolePlan(cfg).pwm)
    ensures !(p in RolePlan(cfg).read && p in RolePlan(cfg).pwm)
    ensures !(p in RolePlan(cfg).adc && (p in RolePlan(cfg).write || p in RolePlan(cfg).read || p in RolePlan(cfg).pwm))
  {
    var plan := RolePlan(cfg);
    var wSet := Elems(plan.write);
    var rSet := Elems(plan.read);
    ClaimedMembers(cfg.basicWritePinNums, CommandPins, SlotPins, p);
    ClaimedMembers(cfg.basicReadPinNums, CommandPins, SlotPins - wSet, p);
    ClaimedMembers(cfg.pwmWritePinNums, CommandPins, SlotPins - wSet - rSet, p);
    ClaimedMembers(cfg.adcReadPinNums, AdcPins, SlotPins, p);
  }

  /** Each role's list is an order-preserving subsequence of its configured
      list with no pin twice. */
  lemma PlanOrder(cfg: Config)
    ensures IsSubsequence(RolePlan(cfg).write, cfg.basicWritePinNums)
    ensures IsSubsequence(RolePlan(cfg).read, cfg.basicReadPinNums)
    ensures IsSubsequence(RolePlan(cfg).pwm, cfg.pwmWritePinNums)
    ensures IsSubsequence(RolePlan(cfg).adc, cfg.adcReadPinNums)
    ensures forall j, k :: 0 <= j < k < |RolePlan(cfg).write| ==> RolePlan(cfg).write[j] != RolePlan(cfg).write[k]
    ensures forall j, k :: 0 <= j < k < |RolePlan(cfg).read| ==> RolePlan(cfg).read[j] != RolePlan(cfg).read[k]
    ensures forall j, k :: 0 <= j < k < |RolePlan(cfg).pwm| ==> RolePlan(cfg).pwm[j] != RolePlan(cfg).pwm[k]
    ensures forall j, k :: 0 <= j < k < |RolePlan(cfg).adc| ==> RolePlan(cfg).adc[j] != RolePlan(cfg).adc[k]
  {
    var plan := RolePlan(cfg);
    var wSet := Elems(plan.write);
    var rSet := Elems(plan.read);
    ClaimedSubsequence(cfg.basicWritePinNums, CommandPins, SlotPins);
    ClaimedSubsequence(cfg.basicReadPinNums, CommandPins, SlotPins - wSet);
    ClaimedSubsequence(cfg.pwmWritePinNums, CommandPins, SlotPins - wSet - rSet);
    ClaimedSubsequence(cfg.adcReadPinNums, AdcPins, SlotPins);
    ClaimedDistinct(cfg.basicWritePinNums, CommandPins, SlotPins);
    ClaimedDistinct(cfg.basicReadPinNums, CommandPins, SlotPins - wSet);
    ClaimedDistinct(cfg.pwmWritePinNums, CommandPins, SlotPins - wSet - rSet);
    ClaimedDistinct(cfg.adcReadPinNums, AdcPins, SlotPins);
  }

  /** At most four pins go to the digital roles together: the three lists
      keep distinct pins of 14, 26, 25, 33 and share none. */
  lemma PlanDigitalAtMostFour(cfg: Config)
    ensures |RolePlan(cfg).write| + |RolePlan(cfg).read| + |RolePlan(cfg).pwm| <= 4
  {
    var plan := RolePlan(cfg);
    var w, r, q := Elems(plan.write), Elems(plan.read), Elems(plan.pwm);
    ClaimedCard(cfg.basicWritePinNums, CommandPins, SlotPins);
    ClaimedCard(cfg.basicReadPinNums, CommandPins, SlotPins - w);
    ClaimedCard(cfg.pwmWritePinNums, CommandPins, SlotPins - w - r);
    DisjointCard(w, r);
    DisjointCard(w + r, q);
    SubsetCard(w + r + q, CommandPins);
    CommandPinsCount();
  }

  // ------------------------------------------------------ implementation

  /** The pool of `Option` handles when exactly the pins `free` are still
      available: `Some(peripherals.GPIOnn)` for those, `None` for taken ones. */
  function PoolOf(free: set<u8>): (pool: map<u8, Option<Gpio>>)
    ensures pool.Keys == SlotPins
  {
    map q | q in SlotPins :: if q in free then Some(Gpio(q)) else None
  }

  function WritePinNums(items: seq<BasicWritePinTaskItem>): (r: seq<u8>)
    ensures |r| == |items|
  {
    seq(|items|, k requires 0 <= k < |items| => items[k].pinNum)
  }

  function ReadPinNums(items: seq<BasicReadPinTaskItem>): (r: seq<u8>)
    ensures |r| == |items|
  {
    seq(|items|, k requires 0 <= k < |items| => items[k].pinNum)
  }

  function PwmPinNums(items: seq<PwmWritePinTaskItem>): (r: seq<u8>)
    ensures |r| == |items|
  {
    seq(|items|, k requires 0 <= k < |items| => items[k].pinNum)
  }

  function AdcPinNums(items: seq<AdcReadPinTaskItem>): (r: seq<u8>)
    ensures |r| == |items|
  {
    seq(|items|, k requires 0 <= k < |items| => items[k].pinNum)
  }

  /** The ADC item built for an analog pin: its own handle, the other one
      `None`. */
  function AdcItemFor(pinNum: u8): AdcReadPinTaskItem
  {
    if pinNum == 32 then AdcReadPinTaskItem(32, None, Some(AdcPin(Gpio(32))))
    else AdcReadPinTaskItem(pinNum, Some(AdcPin(Gpio(pinNum))), None)
  }

  /** `gpioNN.take()` for a digital role, with `free` the pins whose
      handles are still in the pool: the handle of one of 14, 26, 25, 33
      when it is still there, leaving `None` behind; `None` when it was
      taken earlier or the pin number has no arm, leaving the pool alone. */
  method TakeDigital(pool: map<u8, Option<Gpio>>, pinNum: u8, ghost free: set<u8>)
    returns (pin: Option<Gpio>, pool': map<u8, Option<Gpio>>)
    requires pool == PoolOf(free)
    ensures pin.Some? <==> pinNum in CommandPins && pinNum in free
    ensures pin.Some? ==> pin.value == Gpio(pinNum) && pool' == PoolOf(free - {pinNum})
    ensures pin.None? ==> pool' == pool
  {
    pin, pool' := None, pool;
    if pinNum in CommandPins {
      pin := pool[pinNum];
      pool' := pool[pinNum := None];
      if pinNum in free {
        TakeFree(free, pinNum);
      } else {
        TakeTaken(free, pinNum);
      }
    }
  }

  /** Taking one free pin out of the pool leaves the pool of the remaining
      free pins. */
  lemma TakeFree(free: set<u8>, pinNum: u8)
    requires pinNum in CommandPins && pinNum in free
    ensures PoolOf(free)[pinNum := None] == PoolOf(free - {pinNum})
  {
    assert PoolOf(free)[pinNum := None].Keys == PoolOf(free - {pinNum}).Keys;
  }

  /** Taking a handle that is already gone leaves the pool as it was. */
  lemma TakeTaken(free: set<u8>, pinNum: u8)
    requires pinNum in CommandPins && pinNum !in free
    ensures PoolOf(free)[pinNum := None] == PoolOf(free)
  {
    assert PoolOf(free)[pinNum := None].Keys == PoolOf(free).Keys;
  }

  /** One more entry of a role's list: it is kept exactly when the role can
      wire it and its handle is still in the pool of the pins `free` minus
      those the role kept so far. */
  lemma ClaimStep(req: seq<u8>, i: nat, free: set<u8>)
    requires i < |req|
    ensures var prev := Claimed(req[..i], CommandPins, free);
            Claimed(req[..i + 1], CommandPins, free) ==
              if req[i] in CommandPins && req[i] in free - Elems(prev) then prev + [req[i]] else prev
    ensures var prev := Claimed(req[..i], CommandPins, free);
            Elems(prev + [req[i]]) == Elems(prev) + {req[i]}
  {
    assert req[..i + 1][..i] == req[..i];
    ElemsSnoc(Claimed(req[..i], CommandPins, free), req[i]);
  }

  /** The basic-write loop. */
  method AllocateBasicWrite(pool: map<u8, Option<Gpio>>, req: seq<u8>, ghost free: set<u8>)
    returns (items: seq<BasicWritePinTaskItem>, pool': map<u8, Option<Gpio>>)
    requires pool == PoolOf(free)
    ensures WritePinNums(items) == Claimed(req, CommandPins, free)
    ensures pool' == PoolOf(free - Elems(WritePinNums(items)))
    ensures forall k :: 0 <= k < |items| ==> items[k].pin == Gpio(items[k].pinNum)
  {
    items, pool' := [], pool;
    ghost var rest := free;
    for i := 0 to |req|
      invariant WritePinNums(items) == Claimed(req[..i], CommandPins, free)
      invariant rest == free - Elems(WritePinNums(items))
      invariant pool' == PoolOf(rest)
      invariant forall k :: 0 <= k < |items| ==> items[k].pin == Gpio(items[k].pinNum)
    {
      ghost var before := WritePinNums(items);
      ClaimStep(req, i, free);
      var pin;
      pin, pool' := TakeDigital(pool', req[i], rest);
      if pin.Some? {
        items := items + [BasicWritePinTaskItem(req[i], pin.value)];
        assert WritePinNums(items) == before + [req[i]];
        rest := rest - {req[i]};
      }
    }
    assert req[..|req|] == req;
  }

  /** The basic-read loop. */
  method AllocateBasicRead(pool: map<u8, Option<Gpio>>, req: seq<u8>, ghost free: set<u8>)
    returns (items: seq<BasicReadPinTaskItem>, pool': map<u8, Option<Gpio>>)
    requires pool == PoolOf(free)
    ensures ReadPinNums(items) == Claimed(req, CommandPins, free)
    ensures pool' == PoolOf(free - Elems(ReadPinNums(items)))
    ensures forall k :: 0 <= k < |items| ==> items[k].pin == Gpio(items[k].pinNum)
  {
    items, pool' := [], pool;
    ghost var rest := free;
    for i := 0 to |req|
      invariant ReadPinNums(items) == Claimed(req[..i], CommandPins, free)
      invariant rest == free - Elems(ReadPinNums(items))
      invariant pool' == PoolOf(rest)
      invariant forall k :: 0 <= k < |items| ==> items[k].pin == Gpio(items[k].pinNum)
    {
      ghost var before := ReadPinNums(items);
      ClaimStep(req, i, free);
      var pin;
      pin, pool' := TakeDigital(pool', req[i], rest);
      if pin.Some? {
        items := items + [BasicReadPinTaskItem(req[i], pin.value)];
        assert ReadPinNums(items) == before + [req[i]];
        rest := rest - {req[i]};
      }
    }
    assert req[..|req|] == req;
  }

  /** The PWM loop: each kept pin is bound to `CHANNELS[channel_idx]`, and
      `channel_idx` moves on only when a pin is kept. The digital handles
      already taken are gone from the pool, which keeps the index below 8. */
  method AllocatePwmWrite(pool: map<u8, Option<Gpio>>, req: seq<u8>, ghost free: set<u8>)
    returns (items: seq<PwmWritePinTaskItem>, pool': map<u8, Option<Gpio>>)
    requires pool == PoolOf(free)
    ensures PwmPinNums(items) == Claimed(req, CommandPins, free)
    ensures pool' == PoolOf(free - Elems(PwmPinNums(items)))
    ensures forall k :: 0 <= k < |items| ==> items[k].channel == k
  {
    items, pool' := [], pool;
    var channelIdx: nat := 0;
    ghost var rest := free;
    for i := 0 to |req|
      invariant PwmPinNums(items) == Claimed(req[..i], CommandPins, free)
      invariant rest == free - Elems(PwmPinNums(items))
      invariant pool' == PoolOf(rest)
      invariant forall k :: 0 <= k < |items| ==> items[k].channel == k
      invariant channelIdx == |items|
    {
      ghost var before := PwmPinNums(items);
      ClaimStep(req, i, free);
      ClaimedAtMostFour(req[..i + 1], free);
      var pin;
      pin, pool' := TakeDigital(pool', req[i], rest);
      if pin.Some? {
        var channel := Channels[channelIdx];
        items := items + [PwmWritePinTaskItem(req[i], channel)];
        channelIdx := channelIdx + 1;
        assert PwmPinNums(items) == before + [req[i]];
        rest := rest - {req[i]};
      }
    }
    assert req[..|req|] == req;
  }

  /** The ADC loop: only 32 and 35 are accepted, each item carries its own
      handle and `None` for the other. */
  method AllocateAdcRead(pool: map<u8, Option<Gpio>>, req: seq<u8>)
    returns (items: seq<AdcReadPinTaskItem>)
    requires pool.Keys == SlotPins
    requires pool[32] == Some(Gpio(32)) && pool[35] == Some(Gpio(35))
    ensures AdcPinNums(items) == Claimed(req, AdcPins, SlotPins)
    ensures forall k :: 0 <= k < |items| ==> items[k] == AdcItemFor(items[k].pinNum)
  {
    items := [];
    var pool' := pool;
    for i := 0 to |req|
      invariant pool'.Keys == SlotPins
      invariant AdcPinNums(items) == Claimed(req[..i], AdcPins, SlotPins)
      invariant forall q :: q in AdcPins ==> pool'[q] == if q in AdcPinNums(items) then None else Some(Gpio(q))
      invariant forall k :: 0 <= k < |items| ==> items[k] == AdcItemFor(items[k].pinNum)
    {
      assert req[..i + 1][..i] == req[..i];
      var pinNum := req[i];
      var item: Option<AdcReadPinTaskItem> := None;
      if pinNum == 32 {
        var handle := pool'[32];
        pool' := pool'[32 := None];
        if handle.Some? {
          item := Some(AdcReadPinTaskItem(pinNum, None, Some(AdcPin(handle.value))));
        }
      } else if pinNum == 35 {
        var handle := pool'[35];
        pool' := pool'[35 := None];
        if handle.Some? {
          item := Some(AdcReadPinTaskItem(pinNum, Some(AdcPin(handle.value)), None));
        }
      }
      if item.Some? {
        items := items + [item.value];
      }
    }
    assert req[..|req|] == req;
  }

  /** The allocation done by `main` before the tasks are spawned. Each role
      keeps the pins `RolePlan` gives it, in order; every item holds its own
      pin's handle; PWM items get channels 0, 1, 2, ... and at most four pins
      go to the digital roles, so `CHANNELS[channel_idx]` stays in bounds;
      the wireless layer is handed the configured analog list, not the
      allocated one. */
  method Allocate(cfg: Config) returns (a: Allocation)
    ensures WritePinNums(a.basicWrite) == RolePlan(cfg).write
    ensures ReadPinNums(a.basicRead) == RolePlan(cfg).read
    ensures PwmPinNums(a.pwmWrite) == RolePlan(cfg).pwm
    ensures AdcPinNums(a.adcRead) == RolePlan(cfg).adc
    ensures forall k :: 0 <= k < |a.basicWrite| ==> a.basicWrite[k].pin == Gpio(a.basicWrite[k].pinNum)
    ensures forall k :: 0 <= k < |a.basicRead| ==> a.basicRead[k].pin == Gpio(a.basicRead[k].pinNum)
    ensures forall k :: 0 <= k < |a.pwmWrite| ==> a.pwmWrite[k].channel == k
    ensures |a.basicWrite| + |a.basicRead| + |a.pwmWrite| <= 4
    ensures forall k :: 0 <= k < |a.adcRead| ==> a.adcRead[k] == AdcItemFor(a.adcRead[k].pinNum)
    ensures a.bleAdcPinNums == cfg.adcReadPinNums
  {
    // Wrap peripherals in Option so each can be taken once.
    var pool := PoolOf(SlotPins);
    var basicWrite, basicRead, pwmWrite;
    basicWrite, pool := AllocateBasicWrite(pool, cfg.basicWritePinNums, SlotPins);
    ghost var wSet := Elems(WritePinNums(basicWrite));
    basicRead, pool := AllocateBasicRead(pool, cfg.basicReadPinNums, SlotPins - wSet);
    ghost var rSet := Elems(ReadPinNums(basicRead));
    pwmWrite, pool := AllocatePwmWrite(pool, cfg.pwmWritePinNums, SlotPins - wSet - rSet);
    ghost var pSet := Elems(PwmPinNums(pwmWrite));
    ClaimedWithin(cfg.basicWritePinNums, CommandPins, SlotPins);
    ClaimedWithin(cfg.basicReadPinNums, CommandPins, SlotPins - wSet);
    ClaimedWithin(cfg.pwmWritePinNums, CommandPins, SlotPins - wSet - rSet);
    assert 32 in SlotPins - wSet - rSet - pSet && 35 in SlotPins - wSet - rSet - pSet;
    var adcRead := AllocateAdcRead(pool, cfg.adcReadPinNums);
    PlanDigitalAtMostFour(cfg);
    a := Allocation(basicWrite, basicRead, pwmWrite, adcRead, cfg.adcReadPinNums);
  }
}
