/** Runs of the command station's main thread: throttle, function, accessory and other requests, the
    emergency stop lock, and calls of the packet scheduler, in any order.

    The main results say what may be queued and sent in any run: nothing that moves a loco while the
    lock is on, only the latest speed and functions, and never two packets running to one loco. */
module ThrottleRuns {
  import opened DccFraming
  import opened PacketQueue
  import opened PacketEncoders
  import S = DccSniffer

  // ---------------------------------------------------------------- reading packets

  /** Where the instruction of a loco packet starts; nowhere in idle and accessory packets. */
  function InstructionAt(p: Packet): (r: Option<nat>)
    ensures r.Some? ==> 1 <= r.value <= 2
  {
    if |p| == 0 || p[0] == 0xFF then None
    else if p[0] & 0x80 == 0 then Some(1)
    else if p[0] & 0x40 != 0 then Some(2)
    else None
  }

  /** What a decoder obeys: a speed other than emergency stop. */
  predicate Moving(p: Packet) {
    var n := InstructionAt(p);
    n.Some? && n.value < |p| && MovesBy(p[n.value..])
  }

  predicate MovesBy(instr: Packet)
    requires |instr| >= 1
  {
    match S.InstructionOf(instr[0])
    case FullSpeed => |instr| >= 2 && instr[1] & 0x7F != 1
    case CoarseSpeed => instr[0] & 0x0F != 1
    case Functions(_) => false
    case Unused => false
  }

  /** A packet that ends in an emergency stop instruction. */
  predicate CarriesStop(p: Packet) {
    var n := |p|;
    || (n >= 2 && p[n - 2] == SET_SPEED && p[n - 1] & 0x7F == 1)
    || (n >= 1 && p[n - 1] & 0xDF == 0x41)
  }

  predicate Halts(p: Packet) {
    CarriesStop(p) && !Moving(p)
  }

  predicate IsAccessory(p: Packet) {
    |p| >= 2 && p[0] & 0xC0 == 0x80
  }

  predicate IsStop(code: bv8) {
    code & 0x7F == 1
  }

  lemma SpeedMoves(code: bv8, steps: Steps)
    ensures MovesBy(SpeedBytes(code, steps)) <==> !IsStop(code)
    ensures IsStop(code) ==> CarriesStop(SpeedBytes(code, steps))
  {
    if steps == Steps28 {
      S.Speed28IsStable(code);
      Coarse(code);
    }
  }

  lemma Coarse(code: bv8)
    ensures var i0 := SpeedBytes(code, Steps28)[0];
            && S.InstructionOf(i0) == S.CoarseSpeed
            && (i0 & 0x0F == 1 <==> code & 0x7F == 1)
            && (code & 0x7F == 1 ==> i0 & 0xDF == 0x41)
  {
  }

  lemma AddressReads(cab: Cab, h: Cab, instr: Packet)
    requires h <= 127 && |instr| >= 1
    ensures var a, n := AddressBytes(cab, h), InstructionAt(AddressBytes(cab, h) + instr);
            (n.Some? ==> n.value == |a|) && (cab < 0x3F00 ==> n.Some?)
  {
    S.AddressForm(cab, h);
    hide AddressBytes;
    assert (AddressBytes(cab, h) + instr)[0] == AddressBytes(cab, h)[0];
  }

  /** A throttle packet moves a loco exactly if its speed code is not emergency stop. */
  lemma ThrottleReads(cab: Cab, code: bv8, steps: Steps, h: Cab)
    requires h <= 127
    ensures IsStop(code) ==> Halts(ThrottlePacket(cab, code, steps, h))
    ensures cab < 0x3F00 && !IsStop(code) ==> Moving(ThrottlePacket(cab, code, steps, h))
  {
    var a, b := AddressBytes(cab, h), SpeedBytes(code, steps);
    var p := a + b;
    AddressReads(cab, h, b);
    SpeedMoves(code, steps);
    assert p[|a|..] == b;
    if IsStop(code) {
      StopBehind(a, b);
    }
    hide AddressBytes, SpeedBytes, InstructionAt, MovesBy, CarriesStop, IsStop;
  }

  lemma StopBehind(a: Packet, b: Packet)
    requires CarriesStop(b)
    ensures CarriesStop(a + b)
  {
  }

  lemma FunctionReads(cab: Cab, g: Group, f: bv32, h: Cab)
    requires h <= 127
    ensures !Moving(FunctionPacket(cab, g, f, h))
  {
    var a, b := AddressBytes(cab, h), GroupBytes(g, f);
    AddressReads(cab, h, b);
    S.GroupCodes(g, f);
    assert (a + b)[|a|..] == b;
    hide AddressBytes, GroupBytes, InstructionAt, S.InstructionOf;
  }

  /** Accessory packets, and idle ones, move nothing, whatever follows their first byte. */
  lemma AccessoryReads(p: Packet)
    requires IsAccessory(p)
    ensures !Moving(p) && IsAccessory(GateOff(p))
  {
    var b := p[0];
    assert b & 0xC0 == 0x80 ==> b & 0x80 != 0 && b & 0x40 == 0;
  }

  // ---------------------------------------------------------------- steps

  datatype Topic = Topic(kind: Kind, tag: nat)

  /** `latest` remembers the packet last requested for each speed and function group. */
  datatype World = World(q: Queues, locked: bool, latest: map<Topic, Packet>, sent: seq<Emission>, h: Cab)

  datatype Op =
    | Throttle(cab: Cab, reverse: bool, code: bv8, steps: Steps)
    | Functions(cab: Cab, group: Group, functions: bv32)
    | Other(packet: Packet, repeats: nat, cab: Cab)
    | AccOnOff(packet: Packet, repeats: nat, delay: nat)
    | Lock(steps: Steps)
    | Unlock
    | Tick(force: bool, now: nat)

  function Start(h: Cab): World {
    World(Queues([], [], 0), false, map[], [], h)
  }

  function TagOf(cab: Cab): (t: nat)
    ensures t < HALF_WORD
    ensures cab == 0 ==> t == 0
  {
    cab as nat
  }

  /** The speed code that reaches the track: turned round in a reversed loco, stopped by the lock. */
  function EffectiveCode(locked: bool, reverse: bool, code: bv8): bv8 {
    var c := if reverse then code ^ 0x80 else code;
    if locked then (c & 0x80) | 0x01 else c
  }

  function Forget(latest: map<Topic, Packet>, tag: nat): map<Topic, Packet> {
    map k | k in latest && !(k.kind == Speed && (tag == 0 || k.tag == tag)) :: latest[k]
  }

  function SetThrottle(w: World, cab: Cab, code: bv8, steps: Steps): World {
    var p, t := ThrottlePacket(cab, code, steps, w.h), TagOf(cab);
    if IsStop(code) then w.(q := SendEstop(w.q, p, 4, t), latest := Forget(w.latest, t))
    else w.(q := SendSpeed(w.q, p, 0, t), latest := w.latest[Topic(Speed, t) := p])
  }

  function GroupNumber(g: Group): (n: nat)
    ensures 1 <= n <= 5
  {
    match g case G1 => 1 case G2 => 2 case G3 => 3 case G4 => 4 case G5 => 5
  }

  function SetFunctions(w: World, cab: Cab, g: Group, f: bv32): World {
    var p, t, n := FunctionPacket(cab, g, f, w.h), TagOf(cab), GroupNumber(g);
    w.(q := SendFunction(w.q, p, t, n), latest := w.latest[Topic(Function(n), t) := p])
  }

  function SetLock(w: World, steps: Steps): World {
    if w.locked then w
    else SetThrottle(w.(locked := true), 0, EffectiveCode(true, false, 1), steps)
  }

  function Pump(w: World, force: bool, now: nat): World {
    var (q', e) := Next(w.q, force, now);
    w.(q := q', sent := if e.Some? then w.sent + [e.value] else w.sent)
  }

  function Step(w: World, op: Op): World {
    match op
    case Throttle(cab, reverse, code, steps) => SetThrottle(w, cab, EffectiveCode(w.locked, reverse, code), steps)
    case Functions(cab, group, functions) => SetFunctions(w, cab, group, functions)
    case Other(packet, repeats, cab) => w.(q := SendPacket(w.q, packet, repeats, TagOf(cab)))
    case AccOnOff(packet, repeats, delay) => w.(q := SendAccOnOff(w.q, packet, repeats, delay))
    case Lock(steps) => SetLock(w, steps)
    case Unlock => w.(locked := false)
    case Tick(force, now) => Pump(w, force, now)
  }

  function Run(w: World, ops: seq<Op>): World {
    if ops == [] then w else Step(Run(w, ops[..|ops| - 1]), ops[|ops| - 1])
  }

  /** What the callers send: accessory packets for accessories, and nothing that moves a loco other
      than through the throttle. */
  predicate OpOk(op: Op) {
    && (op.Other? ==> !Moving(Cut(op.packet)))
    && (op.AccOnOff? ==> IsAccessory(Cut(op.packet)))
  }

  // ---------------------------------------------------------------- where slots come from

  lemma {:induction false} SurvivorsAre(q: seq<Slot>, loco: nat)
    ensures forall s :: s in Survivors(q, loco) <==> s in q && !Flushed(s, loco)
    decreases q
  {
    if q != [] {
      SurvivorsAre(q[1..], loco);
      assert q == [q[0]] + q[1..];
    }
  }

  /** Slots in a queue after a call: those before, one sent once more, and a coil-off made of a coil-on. */
  ghost predicate From(s: Slot, q: seq<Slot>) {
    s in q || exists x :: x in q && Stays(x) && s == OneLess(x)
  }

  ghost predicate MadeOff(s: Slot, q: Queues, now: nat) {
    exists x :: (x in q.high || x in q.low) && x.kind == AccOn && s == TurnedOff(x, now)
  }

  lemma TakenFrom(q: seq<Slot>, i: nat)
    requires i < |q|
    ensures forall s :: s in Without(q, i) ==> s in q
    ensures Stays(q[i]) ==> forall s :: s in q[i := OneLess(q[i])] ==> From(s, q)
  {
    assert q[i] in q;
  }

  lemma NextAre(q: Queues, force: bool, now: nat)
    ensures var q' := Next(q, force, now).0;
            && (forall s :: s in q'.high ==> From(s, q.high) || MadeOff(s, q, now))
            && (forall s :: s in q'.low ==> From(s, q.low))
  {
    var i, j := FirstReady(q.high, q.lastSent, now), FirstReady(q.low, q.lastSent, now);
    if i < |q.high| {
      TakenFrom(q.high, i);
      assert q.high[i] in q.high;
    } else if j < |q.low| {
      TakenFrom(q.low, j);
      assert q.low[j] in q.low;
    }
    hide FirstReady, TurnedOff, OneLess, Slot.Tag, Stays;
  }

  // ---------------------------------------------------------------- invariants of single slots

  /** Of these there is one slot per topic. */
  predicate Singular(s: Slot) {
    s.kind.Function? || (s.kind == Speed && s.Tag() != 0)
  }

  predicate Current(s: Slot, latest: map<Topic, Packet>) {
    Singular(s) ==> Topic(s.kind, s.Tag()) in latest && latest[Topic(s.kind, s.Tag())] == s.payload
  }

  predicate HighOk(s: Slot, latest: map<Topic, Packet>, locked: bool) {
    && (s.kind == Speed || s.kind == AccOff)
    && (s.kind == AccOff ==> !Moving(s.payload))
    && (s.kind == Speed && locked ==> Halts(s.payload))
    && Current(s, latest)
  }

  predicate LowOk(s: Slot, latest: map<Topic, Packet>) {
    && (s.kind == Normal || s.kind.Function? || s.kind == AccOn)
    && !Moving(s.payload)
    && (s.kind == AccOn ==> IsAccessory(s.payload))
    && Current(s, latest)
  }

  ghost predicate SlotsOk(w: World) {
    && (forall s :: s in w.q.high ==> HighOk(s, w.latest, w.locked))
    && (forall s :: s in w.q.low ==> LowOk(s, w.latest))
  }

  /** The replacement test finds a throttle slot or nothing, not a coil-off with the loco's tag. */
  predicate Unaliased(w: World, op: Op) {
    op.Throttle? && !IsStop(EffectiveCode(w.locked, op.reverse, op.code)) ==>
      var i := Find(w.q.high, TagOf(op.cab), None);
      i < |w.q.high| ==> w.q.high[i].kind == Speed
  }

  lemma LockStops(reverse: bool, code: bv8)
    ensures IsStop(EffectiveCode(true, reverse, code))
  {
    var c := if reverse then code ^ 0x80 else code;
    assert ((c & 0x80) | 0x01) & 0x7F == 1;
  }

  /** The code sent is as asked for: the speed unless the lock is on, and then emergency stop; and the
      direction, the other way round if the loco is reversed, locked or not. */
  lemma CodeIsAsAsked(locked: bool, reverse: bool, code: bv8)
    ensures var c := EffectiveCode(locked, reverse, code);
            && c & 0x7F == (if locked then 1 else code & 0x7F)
            && (c & 0x80 != 0 <==> (code & 0x80 != 0) != reverse)
  {
  }

  lemma EstopKeeps(w: World, cab: Cab, code: bv8, steps: Steps)
    requires w.h <= 127 && SlotsOk(w) && IsStop(code)
    ensures SlotsOk(SetThrottle(w, cab, code, steps))
  {
    var p, t := ThrottlePacket(cab, code, steps, w.h), TagOf(cab);
    var w' := SetThrottle(w, cab, code, steps);
    ThrottleReads(cab, code, steps, w.h);
    SurvivorsAre(w.q.high, t);
    NewTag(Speed, p, 4, 0);
    hide ThrottlePacket, IsStop, Survivors, Moving, Halts, IsAccessory, TagOf, Slot.Tag;
    forall s | s in w'.q.high ensures HighOk(s, w'.latest, w'.locked) {
      if s == NewSlot(Speed, p, 4, 0) {
      } else {
        assert s in w.q.high && !Flushed(s, t);
      }
    }
  }

  lemma NewTag(kind: Kind, p: Packet, repeats: nat, loco: nat)
    requires loco < HALF_WORD
    ensures NewSlot(kind, p, repeats, loco).Tag() == loco
  {
  }

  lemma RefilledTag(s: Slot, p: Packet, repeats: nat)
    ensures Refilled(s, p, repeats).Tag() == s.Tag()
  {
  }

  lemma SpeedKeeps(w: World, cab: Cab, code: bv8, steps: Steps)
    requires SlotsOk(w) && !w.locked && !IsStop(code)
    requires var i := Find(w.q.high, TagOf(cab), None); i < |w.q.high| ==> w.q.high[i].kind == Speed
    requires Distinct(w.q.high)
    ensures SlotsOk(SetThrottle(w, cab, code, steps))
  {
    var p, t := ThrottlePacket(cab, code, steps, w.h), TagOf(cab);
    var w' := SetThrottle(w, cab, code, steps);
    var i := Find(w.q.high, t, None);
    NewTag(Speed, p, 0, t);
    hide ThrottlePacket, IsStop, Moving, Halts, IsAccessory, TagOf, Slot.Tag;
    if i < |w.q.high| {
      RefilledTag(w.q.high[i], p, 0);
    }
    forall k | 0 <= k < |w'.q.high| ensures HighOk(w'.q.high[k], w'.latest, w'.locked) {
      var s := w'.q.high[k];
      if k != i {
        assert s == w.q.high[k] && s in w.q.high;
        if i < k {
          assert !Clash(w.q.high[i], w.q.high[k]);
        }
      } else if i < |w.q.high| {
        assert w.q.high[i] in w.q.high;
      }
    }
  }

  // ---------------------------------------------------------------- one slot per topic

  predicate Clash(a: Slot, b: Slot) {
    Singular(a) && a.kind == b.kind && a.Tag() == b.Tag()
  }

  ghost predicate Distinct(q: seq<Slot>) {
    forall i, j :: 0 <= i < j < |q| ==> !Clash(q[i], q[j])
  }

  lemma FunctionsKeep(w: World, cab: Cab, g: Group, f: bv32)
    requires w.h <= 127 && SlotsOk(w) && Distinct(w.q.low)
    ensures SlotsOk(SetFunctions(w, cab, g, f))
  {
    var p, t, n := FunctionPacket(cab, g, f, w.h), TagOf(cab), GroupNumber(g);
    var w' := SetFunctions(w, cab, g, f);
    FunctionReads(cab, g, f, w.h);
    var i := Find(w.q.low, t, Some(Function(n)));
    NewTag(Function(n), p, 0, t);
    hide FunctionPacket, Moving, Halts, IsAccessory, TagOf, Slot.Tag;
    if i < |w.q.low| {
      RefilledTag(w.q.low[i], p, 0);
    }
    forall k | 0 <= k < |w'.q.low| ensures LowOk(w'.q.low[k], w'.latest) {
      var s := w'.q.low[k];
      if k != i {
        assert s == w.q.low[k] && s in w.q.low;
        if i < k {
          assert !Clash(w.q.low[i], w.q.low[k]);
        }
      } else if i < |w.q.low| {
        assert w.q.low[i] in w.q.low;
      }
    }
  }

  lemma JoinKeeps(w: World, s: Slot)
    requires SlotsOk(w) && LowOk(s, w.latest)
    ensures SlotsOk(w.(q := w.q.(low := w.q.low + [s])))
  {
  }

  lemma PumpKeeps(w: World, force: bool, now: nat)
    requires SlotsOk(w)
    ensures SlotsOk(Pump(w, force, now))
  {
    var w' := Pump(w, force, now);
    NextAre(w.q, force, now);
    hide Moving, Halts, IsAccessory, Next, TurnedOff, Slot.Tag;
    forall s | s in w'.q.high ensures HighOk(s, w'.latest, w'.locked) {
      if From(s, w.q.high) {
        FromKeeps(s, w.q.high);
      } else {
        var x :| (x in w.q.high || x in w.q.low) && x.kind == AccOn && s == TurnedOff(x, now);
        assert x in w.q.low;
        OffOk(x, now);
      }
    }
    forall s | s in w'.q.low ensures LowOk(s, w'.latest) {
      FromKeeps(s, w.q.low);
    }
  }

  lemma FromKeeps(s: Slot, q: seq<Slot>)
    requires From(s, q)
    ensures exists x :: x in q && s.kind == x.kind && s.payload == x.payload && s.Tag() == x.Tag()
  {
    if s !in q {
      var x :| x in q && Stays(x) && s == OneLess(x);
      assert s.Tag() == x.Tag();
    }
  }

  lemma OffOk(x: Slot, now: nat)
    requires IsAccessory(x.payload)
    ensures TurnedOff(x, now).kind == AccOff && !Moving(TurnedOff(x, now).payload)
  {
    AccessoryReads(x.payload);
    AccessoryReads(GateOff(x.payload));
  }

  lemma StepKeepsSlots(w: World, op: Op)
    requires w.h <= 127 && SlotsOk(w) && Distinct(w.q.high) && Distinct(w.q.low)
    requires OpOk(op) && Unaliased(w, op)
    ensures SlotsOk(Step(w, op))
  {
    hide SlotsOk, SetThrottle, SetFunctions, Moving, Distinct, Pump, IsStop, IsAccessory, Find, TagOf;
    match op
    case Throttle(cab, reverse, code, steps) =>
      LockStops(reverse, code);
      var c := EffectiveCode(w.locked, reverse, code);
      hide EffectiveCode;
      if IsStop(c) {
        EstopKeeps(w, cab, c, steps);
      } else {
        SpeedKeeps(w, cab, c, steps);
      }
    case Functions(cab, group, functions) =>
      FunctionsKeep(w, cab, group, functions);
    case Other(packet, repeats, cab) =>
      JoinKeeps(w, NewSlot(Normal, packet, repeats, TagOf(cab)));
    case AccOnOff(packet, repeats, delay) =>
      AccessoryReads(Cut(packet));
      JoinKeeps(w, NewSlot(AccOn, packet, repeats, delay));
    case Lock(steps) =>
      LockKeeps(w, steps);
    case Unlock =>
      UnlockKeeps(w);
    case Tick(force, now) =>
      PumpKeeps(w, force, now);
  }

  lemma UnlockKeeps(w: World)
    requires SlotsOk(w)
    ensures SlotsOk(w.(locked := false))
  {
    hide Moving, Halts, Current;
  }

  /** Locking flushes every throttle slot, so what is left of the high queue is coil-offs. */
  lemma LockKeeps(w: World, steps: Steps)
    requires w.h <= 127 && SlotsOk(w)
    ensures SlotsOk(SetLock(w, steps))
  {
    if !w.locked {
      LockStops(false, 1);
      var c, w' := EffectiveCode(true, false, 1), SetLock(w, steps);
      var p := ThrottlePacket(0, c, steps, w.h);
      ThrottleReads(0, c, steps, w.h);
      NewTag(Speed, p, 4, 0);
      SurvivorsAre(w.q.high, 0);
      hide ThrottlePacket, IsStop, Survivors, Moving, Halts, IsAccessory, Slot.Tag, EffectiveCode;
      forall s | s in w'.q.high ensures HighOk(s, w'.latest, w'.locked) {
        if s != NewSlot(Speed, p, 4, 0) {
          assert s in w.q.high && !Flushed(s, 0);
        }
      }
    }
  }

  // ---------------------------------------------------------------- one slot per topic, in every run

  lemma {:induction false} SurvivorsDistinct(q: seq<Slot>, loco: nat)
    requires Distinct(q)
    ensures Distinct(Survivors(q, loco))
    decreases q
  {
    if q != [] {
      hide Clash;
      SurvivorsDistinct(q[1..], loco);
      SurvivorsAre(q[1..], loco);
      var r := Survivors(q[1..], loco);
      forall j | 0 <= j < |r| ensures !Clash(q[0], r[j]) {
        assert r[j] in q[1..];
        var k :| 0 <= k < |q[1..]| && q[1..][k] == r[j];
        assert !Clash(q[0], q[k + 1]);
      }
    }
  }

  lemma JumpDistinct(s: Slot, q: seq<Slot>)
    requires Distinct(q) && !Singular(s)
    ensures Distinct([s] + q)
  {
  }

  lemma JoinDistinct(q: seq<Slot>, s: Slot)
    requires Distinct(q) && forall x :: x in q ==> !Clash(x, s)
    ensures Distinct(q + [s])
  {
    hide Clash;
    forall i, j | 0 <= i < j < |q + [s]| ensures !Clash((q + [s])[i], (q + [s])[j]) {
      assert q[i] in q;
    }
  }

  /** Replacing a slot by one of the same kind and tag. */
  lemma SameDistinct(q: seq<Slot>, i: nat, s: Slot)
    requires Distinct(q) && i < |q| && s.kind == q[i].kind && s.Tag() == q[i].Tag()
    ensures Distinct(q[i := s])
  {
    hide Slot.Tag;
    var r := q[i := s];
    forall a, b | 0 <= a < b < |r| ensures !Clash(r[a], r[b]) {
      assert !Clash(q[a], q[b]);
    }
  }

  lemma WithoutDistinct(q: seq<Slot>, i: nat)
    requires Distinct(q) && i < |q|
    ensures Distinct(Without(q, i))
  {
    hide Clash;
    var r := Without(q, i);
    forall a, b | 0 <= a < b < |r| ensures !Clash(r[a], r[b]) {
      assert !Clash(q[if a < i then a else a + 1], q[if b < i then b else b + 1]);
    }
  }

  lemma PlacedDistinct(q: seq<Slot>, loco: nat, kind: Option<Kind>, s: Slot)
    requires Distinct(q) && s.Tag() == loco && (kind.Some? ==> s.kind == kind.value)
    ensures Distinct(Placed(q, Find(q, loco, kind), s))
  {
    var i := Find(q, loco, kind);
    hide Slot.Tag;
    if i < |q| {
      RefilledTag(q[i], s.payload, s.repeats);
      SameDistinct(q, i, Refilled(q[i], s.payload, s.repeats));
    } else {
      JoinDistinct(q, s);
    }
  }

  ghost predicate OnePerTopic(q: Queues) {
    Distinct(q.high) && Distinct(q.low)
  }

  lemma NextDistinct(q: Queues, force: bool, now: nat)
    requires OnePerTopic(q)
    ensures OnePerTopic(Next(q, force, now).0)
  {
    var i, j := FirstReady(q.high, q.lastSent, now), FirstReady(q.low, q.lastSent, now);
    hide FirstReady, Slot.Tag, Distinct, TurnedOff;
    if i < |q.high| {
      WithoutDistinct(q.high, i);
      LessTag(q.high[i], now);
      JumpDistinct(TurnedOff(q.high[i], now), Without(q.high, i));
      if Stays(q.high[i]) {
        SameDistinct(q.high, i, OneLess(q.high[i]));
      }
    } else if j < |q.low| {
      WithoutDistinct(q.low, j);
      LessTag(q.low[j], now);
      JumpDistinct(TurnedOff(q.low[j], now), q.high);
      if Stays(q.low[j]) {
        SameDistinct(q.low, j, OneLess(q.low[j]));
      }
    }
  }

  lemma LessTag(s: Slot, now: nat)
    ensures Stays(s) ==> OneLess(s).Tag() == s.Tag()
    ensures !Singular(TurnedOff(s, now))
  {
  }

  lemma ThrottleDistinct(w: World, cab: Cab, code: bv8, steps: Steps)
    requires OnePerTopic(w.q)
    ensures OnePerTopic(SetThrottle(w, cab, code, steps).q)
  {
    hide Distinct, ThrottlePacket, IsStop, TagOf, Survivors;
    var p, t := ThrottlePacket(cab, code, steps, w.h), TagOf(cab);
    NewTag(Speed, p, 0, t);
    NewTag(Speed, p, 4, 0);
    if IsStop(code) {
      SurvivorsDistinct(w.q.high, t);
      JumpDistinct(NewSlot(Speed, p, 4, 0), Survivors(w.q.high, t));
    } else {
      PlacedDistinct(w.q.high, t, None, NewSlot(Speed, p, 0, t));
    }
  }

  lemma StepDistinct(w: World, op: Op)
    requires OnePerTopic(w.q)
    ensures OnePerTopic(Step(w, op).q)
  {
    hide Distinct, SetThrottle, TagOf, FunctionPacket, EffectiveCode;
    match op
    case Throttle(cab, reverse, code, steps) =>
      ThrottleDistinct(w, cab, EffectiveCode(w.locked, reverse, code), steps);
    case Functions(cab, group, functions) =>
      var p, t, n := FunctionPacket(cab, group, functions, w.h), TagOf(cab), GroupNumber(group);
      NewTag(Function(n), p, 0, t);
      PlacedDistinct(w.q.low, t, Some(Function(n)), NewSlot(Function(n), p, 0, t));
    case Other(packet, repeats, cab) =>
      JoinDistinct(w.q.low, NewSlot(Normal, packet, repeats, TagOf(cab)));
    case AccOnOff(packet, repeats, delay) =>
      JoinDistinct(w.q.low, NewSlot(AccOn, packet, repeats, delay));
    case Unlock =>
    case Lock(steps) =>
      ThrottleDistinct(w.(locked := true), 0, EffectiveCode(true, false, 1), steps);
    case Tick(force, now) =>
      NextDistinct(w.q, force, now);
  }

  /** In every run, each queue holds at most one speed slot for a loco and one slot for each of its
      function groups. */
  lemma {:induction false} AtMostOneSlot(h: Cab, ops: seq<Op>)
    ensures OnePerTopic(Run(Start(h), ops).q)
  {
    if ops != [] {
      hide Step;
      AtMostOneSlot(h, ops[..|ops| - 1]);
      StepDistinct(Run(Start(h), ops[..|ops| - 1]), ops[|ops| - 1]);
    }
  }

  // ---------------------------------------------------------------- spacing, in every run

  /** No two consecutive packets carry the same loco tag. */
  ghost predicate Spaced(sent: seq<Emission>) {
    forall i :: 0 < i < |sent| && sent[i].Tag() == sent[i - 1].Tag() ==> sent[i].Tag() == 0
  }

  predicate Remembers(w: World) {
    w.q.lastSent == if w.sent == [] then 0 else w.sent[|w.sent| - 1].Tag()
  }

  lemma NextSpaces(q: Queues, force: bool, now: nat)
    ensures var (q', e) := Next(q, force, now);
            && (e.None? ==> q' == q)
            && (e.Some? ==> q'.lastSent == e.value.Tag() && (e.value.Tag() == q.lastSent ==> q.lastSent == 0))
  {
  }

  lemma JoinSpaced(sent: seq<Emission>, e: Emission)
    requires Spaced(sent) && (sent != [] && e.Tag() == sent[|sent| - 1].Tag() ==> e.Tag() == 0)
    ensures Spaced(sent + [e])
  {
    hide Emission.Tag;
    var r := sent + [e];
    forall i | 0 < i < |r| && r[i].Tag() == r[i - 1].Tag() ensures r[i].Tag() == 0 {
      if i < |sent| {
        assert r[i] == sent[i];
      }
    }
  }

  lemma StepSpaces(w: World, op: Op)
    requires Spaced(w.sent) && Remembers(w)
    ensures Spaced(Step(w, op).sent) && Remembers(Step(w, op))
  {
    hide Next, Survivors, Find, ThrottlePacket, FunctionPacket, TagOf, EffectiveCode, IsStop, Emission.Tag;
    if op.Tick? {
      NextSpaces(w.q, op.force, op.now);
      var e := Next(w.q, op.force, op.now).1;
      if e.Some? {
        JoinSpaced(w.sent, e.value);
      }
    }
  }

  /** The spacing rule holds in every run, whatever is requested. */
  lemma {:induction false} PacketsAreSpaced(h: Cab, ops: seq<Op>)
    ensures Spaced(Run(Start(h), ops).sent) && Remembers(Run(Start(h), ops))
  {
    if ops != [] {
      hide Step, Spaced, Remembers;
      PacketsAreSpaced(h, ops[..|ops| - 1]);
      StepSpaces(Run(Start(h), ops[..|ops| - 1]), ops[|ops| - 1]);
    } else {
      assert Spaced([]);
    }
  }

  // ---------------------------------------------------------------- the lock, in every run

  /** Every request is one the callers make, and none hits an aliased coil-off. */
  ghost predicate RunOk(w: World, ops: seq<Op>) {
    ops == [] ||
    var n := |ops| - 1;
    RunOk(w, ops[..n]) && OpOk(ops[n]) && Unaliased(Run(w, ops[..n]), ops[n])
  }

  lemma {:induction false} RunKeeps(w: World, ops: seq<Op>)
    requires w.h <= 127 && SlotsOk(w) && OnePerTopic(w.q) && RunOk(w, ops)
    ensures var w' := Run(w, ops); w'.h == w.h && SlotsOk(w') && OnePerTopic(w'.q)
  {
    if ops != [] {
      var n := |ops| - 1;
      RunKeeps(w, ops[..n]);
      var mid := Run(w, ops[..n]);
      StepKeepsSlots(mid, ops[n]);
      StepDistinct(mid, ops[n]);
      SameBuild(mid, ops[n]);
      hide Step, SlotsOk, OnePerTopic, Unaliased, OpOk;
    }
  }

  lemma SameBuild(w: World, op: Op)
    ensures Step(w, op).h == w.h
    ensures w.locked && !op.Unlock? ==> Step(w, op).locked
  {
    hide Next, Survivors, Find, ThrottlePacket, FunctionPacket, TagOf, EffectiveCode, IsStop;
  }

  /** What may go to the track while the lock is on. */
  ghost predicate Harmless(e: Emission) {
    !Moving(e.Payload()) && (e.Sent? && e.slot.kind == Speed ==> Halts(e.slot.payload))
  }

  lemma NextSends(q: Queues, force: bool, now: nat)
    ensures var e := Next(q, force, now).1;
            e.Some? && e.value.Sent? ==> e.value.slot in q.high || e.value.slot in q.low
  {
  }

  lemma IdleReads()
    ensures !Moving(IDLE)
  {
  }

  /** With the lock on, the next step sends nothing that moves a loco. */
  lemma LockedStep(w: World, op: Op)
    requires SlotsOk(w) && w.locked
    ensures var w' := Step(w, op);
            && |w.sent| <= |w'.sent| <= |w.sent| + 1 && w'.sent[..|w.sent|] == w.sent
            && forall i :: |w.sent| <= i < |w'.sent| ==> Harmless(w'.sent[i])
  {
    hide Next, Survivors, Find, ThrottlePacket, FunctionPacket, TagOf, EffectiveCode, IsStop, Moving, Halts;
    if op.Tick? {
      NextSends(w.q, op.force, op.now);
      IdleReads();
      var e := Next(w.q, op.force, op.now).1;
      if e.Some? {
        HaltsDont(e.value.Payload());
        assert Harmless(e.value);
      }
    }
  }

  /** While locked no request can be aliased, because every throttle request is a stop. */
  lemma LockedUnaliased(w: World, op: Op)
    requires w.locked
    ensures Unaliased(w, op)
  {
    if op.Throttle? {
      LockStops(op.reverse, op.code);
    }
  }

  /** From a locked state on, until the lock is released. */
  lemma {:induction false} LockedRun(w: World, ops: seq<Op>)
    requires w.h <= 127 && SlotsOk(w) && OnePerTopic(w.q) && w.locked
    requires forall i :: 0 <= i < |ops| ==> OpOk(ops[i]) && !ops[i].Unlock?
    ensures var w' := Run(w, ops);
            && w'.locked && SlotsOk(w') && OnePerTopic(w'.q) && w'.h == w.h
            && |w.sent| <= |w'.sent| && w'.sent[..|w.sent|] == w.sent
            && forall i :: |w.sent| <= i < |w'.sent| ==> Harmless(w'.sent[i])
  {
    if ops != [] {
      var n := |ops| - 1;
      hide Step, SlotsOk, OnePerTopic, Unaliased, OpOk, Harmless;
      LockedRun(w, ops[..n]);
      var mid := Run(w, ops[..n]);
      LockedUnaliased(mid, ops[n]);
      StepKeepsQueues(mid, ops[n]);
      LockedStep(mid, ops[n]);
      SameBuild(mid, ops[n]);
    }
  }

  lemma StepKeepsQueues(w: World, op: Op)
    requires w.h <= 127 && SlotsOk(w) && OnePerTopic(w.q) && OpOk(op) && Unaliased(w, op)
    ensures SlotsOk(Step(w, op)) && OnePerTopic(Step(w, op).q)
  {
    StepKeepsSlots(w, op);
    StepDistinct(w, op);
    hide Step, SlotsOk, Unaliased, OpOk;
  }

  /** Emergency stop lock: after any history without aliasing, from the moment the lock is on until
      it is released, whatever is requested and however often the queues are served, every speed
      slot queued carries emergency stop and nothing that moves a loco is sent. */
  lemma EstopLockHolds(h: Cab, before: seq<Op>, steps: Steps, after: seq<Op>)
    requires h <= 127 && RunOk(Start(h), before)
    requires forall i :: 0 <= i < |after| ==> OpOk(after[i]) && !after[i].Unlock?
    ensures var w := Step(Run(Start(h), before), Lock(steps));
            var w' := Run(w, after);
            && (forall s :: s in w'.q.high && s.kind == Speed ==> Halts(s.payload))
            && (forall s :: s in w'.q.high || s in w'.q.low ==> !Moving(s.payload))
            && |w.sent| <= |w'.sent| && w'.sent[..|w.sent|] == w.sent
            && forall i :: |w.sent| <= i < |w'.sent| ==> Harmless(w'.sent[i])
  {
    var w0 := Run(Start(h), before);
    RunKeeps(Start(h), before);
    LockKeeps(w0, steps);
    StepDistinct(w0, Lock(steps));
    var w := Step(w0, Lock(steps));
    NowLocked(w0, steps);
    LockedRun(w, after);
    var w' := Run(w, after);
    assert SlotsOk(w') && w'.locked;
    hide Run, RunOk, Moving, Halts, Harmless, Step, SetLock;
    forall s | s in w'.q.high ensures HighOk(s, w'.latest, true) && !Moving(s.payload) {
      HaltsDont(s.payload);
    }
  }

  lemma HaltsDont(p: Packet)
    ensures Halts(p) ==> !Moving(p)
  {
  }

  lemma NowLocked(w: World, steps: Steps)
    ensures Step(w, Lock(steps)).locked && Step(w, Lock(steps)).h == w.h
  {
    hide SendEstop, ThrottlePacket, EffectiveCode, IsStop;
  }

  // ---------------------------------------------------------------- the latest request wins, in every run

  /** What is sent from a speed slot, or a function slot, is the packet last requested for that loco
      and not stopped since. */
  lemma LatestWins(h: Cab, ops: seq<Op>, force: bool, now: nat)
    requires h <= 127 && RunOk(Start(h), ops)
    ensures var w := Run(Start(h), ops);
            var e := Next(w.q, force, now).1;
            e.Some? && e.value.Sent? ==> Current(e.value.slot, w.latest)
  {
    RunKeeps(Start(h), ops);
    var w := Run(Start(h), ops);
    NextSends(w.q, force, now);
    hide Run, Next, RunOk, Current, Moving, Halts;
  }

  /** ops[i] is the last request that says what speed the loco is to have: a speed, asked for while the
      lock is off. */
  predicate LastSpeed(h: Cab, ops: seq<Op>, i: nat, cab: Cab) {
    && i < |ops| && ops[i].Throttle? && ops[i].cab == cab && ops[i].code & 0x7F != 1 && !Run(Start(h), ops[..i]).locked
    && forall k :: i < k < |ops| ==> !ops[k].Lock? && (ops[k].Throttle? ==> SaysNothing(ops[k], cab))
  }

  /** A request for another loco, which is not a stop for all. */
  predicate SaysNothing(op: Op, cab: Cab)
    requires op.Throttle?
  {
    TagOf(op.cab) != TagOf(cab) && (op.cab == 0 ==> op.code & 0x7F != 1)
  }

  /** The packet of a speed request while the lock is off. */
  function RequestedPacket(op: Op, h: Cab): Packet
    requires op.Throttle?
  {
    ThrottlePacket(op.cab, EffectiveCode(false, op.reverse, op.code), op.steps, h)
  }

  predicate Remembered(w: World, cab: Cab, p: Packet) {
    var topic := Topic(Speed, TagOf(cab));
    !w.locked && topic in w.latest && w.latest[topic] == p
  }

  /** That request is what is remembered for the loco, turned round if the loco is reversed. */
  lemma {:induction false} LastIsLatest(h: Cab, ops: seq<Op>, i: nat, cab: Cab)
    requires LastSpeed(h, ops, i, cab)
    ensures Run(Start(h), ops).h == h && Remembered(Run(Start(h), ops), cab, RequestedPacket(ops[i], h))
    decreases |ops|
  {
    LastIs(h, ops, i, cab);
    var n := |ops| - 1;
    var w := Run(Start(h), ops[..n]);
    SameStation(h, ops[..n]);
    SameStation(h, ops);
    hide *;
    if i < n {
      LastIsLatest(h, ops[..n], i, cab);
      LatestStays(w, ops[n], cab);
    } else {
      SpeedIsLatest(w, ops[n]);
    }
  }

  lemma LastIs(h: Cab, ops: seq<Op>, i: nat, cab: Cab)
    requires LastSpeed(h, ops, i, cab)
    ensures var n := |ops| - 1;
            && i <= n && Run(Start(h), ops) == Step(Run(Start(h), ops[..n]), ops[n])
            && (if i < n then
                  && LastSpeed(h, ops[..n], i, cab) && ops[..n][i] == ops[i]
                  && !ops[n].Lock? && (ops[n].Throttle? ==> SaysNothing(ops[n], cab))
                else
                  ops[n].Throttle? && ops[n].cab == cab && ops[n].code & 0x7F != 1 && !Run(Start(h), ops[..n]).locked)
  {
    var n := |ops| - 1;
    hide Step, SaysNothing;
    if i < n {
      assert ops[..n][..i] == ops[..i];
    }
  }

  lemma SpeedIsLatest(w: World, op: Op)
    requires !w.locked && op.Throttle? && op.code & 0x7F != 1
    ensures Step(w, op).h == w.h && Remembered(Step(w, op), op.cab, RequestedPacket(op, w.h))
  {
    CodeIsAsAsked(false, op.reverse, op.code);
    hide ThrottlePacket, EffectiveCode, TagOf, SendSpeed;
  }

  lemma {:induction false} SameStation(h: Cab, ops: seq<Op>)
    ensures Run(Start(h), ops).h == h
  {
    if ops != [] {
      SameStation(h, ops[..|ops| - 1]);
      SameBuild(Run(Start(h), ops[..|ops| - 1]), ops[|ops| - 1]);
      hide Step;
    }
  }

  lemma LatestStays(w: World, op: Op, cab: Cab)
    requires !op.Lock? && (op.Throttle? ==> SaysNothing(op, cab))
    ensures forall p :: Remembered(w, cab, p) ==> Remembered(Step(w, op), cab, p)
  {
    if op.Throttle? {
      ThrottleStays(w, op, cab);
    }
    hide ThrottlePacket, FunctionPacket, EffectiveCode, TagOf, SendSpeed, SendEstop, SendFunction, Next, SetThrottle, IsStop;
  }

  lemma ThrottleStays(w: World, op: Op, cab: Cab)
    requires op.Throttle? && SaysNothing(op, cab)
    ensures forall p :: Remembered(w, cab, p) ==> Remembered(SetThrottle(w, op.cab, EffectiveCode(w.locked, op.reverse, op.code), op.steps), cab, p)
  {
    hide *;
    if !w.locked {
      var c := EffectiveCode(w.locked, op.reverse, op.code);
      SaysNothingTo(op, cab);
      LatestAfter(w, op.cab, c, op.steps);
      if IsStop(c) {
        Forgets(w.latest, TagOf(op.cab), TagOf(cab));
      }
      RememberedBy(w, SetThrottle(w, op.cab, c, op.steps), cab);
    } else {
      LockForgets(w, cab);
    }
  }

  lemma LockForgets(w: World, cab: Cab)
    requires w.locked
    ensures forall p :: !Remembered(w, cab, p)
  {
  }

  /** For another loco, and no stop for all. */
  lemma SaysNothingTo(op: Op, cab: Cab)
    requires op.Throttle? && SaysNothing(op, cab)
    ensures TagOf(op.cab) != TagOf(cab) && (IsStop(EffectiveCode(false, op.reverse, op.code)) ==> TagOf(op.cab) != 0)
  {
    CodeIsAsAsked(false, op.reverse, op.code);
    if op.cab != 0 {
      NonZero(op.cab);
    }
    hide EffectiveCode, TagOf;
  }

  lemma LatestAfter(w: World, cab: Cab, code: bv8, steps: Steps)
    ensures var w', t := SetThrottle(w, cab, code, steps), TagOf(cab);
            && w'.locked == w.locked
            && w'.latest == if IsStop(code) then Forget(w.latest, t) else w.latest[Topic(Speed, t) := ThrottlePacket(cab, code, steps, w.h)]
  {
    hide IsStop, Forget, TagOf, ThrottlePacket, SendSpeed, SendEstop;
  }

  lemma Forgets(latest: map<Topic, Packet>, t: nat, other: nat)
    requires t != 0 && t != other
    ensures var k, r := Topic(Speed, other), Forget(latest, t); (k in r <==> k in latest) && (k in r ==> r[k] == latest[k])
  {
  }

  lemma RememberedBy(w: World, w': World, cab: Cab)
    requires w'.locked == w.locked
    requires var k := Topic(Speed, TagOf(cab)); (k in w.latest ==> k in w'.latest && w'.latest[k] == w.latest[k])
    ensures forall p :: Remembered(w, cab, p) ==> Remembered(w', cab, p)
  {
    hide TagOf;
  }

  /** A request for a speed is what the queue holds for that loco afterwards. */
  lemma SpeedIsQueued(w: World, cab: Cab, code: bv8, steps: Steps)
    requires OnePerTopic(w.q) && !IsStop(code) && cab != 0
    requires var i := Find(w.q.high, TagOf(cab), None); i < |w.q.high| ==> w.q.high[i].kind == Speed
    ensures var q, t, p := SetThrottle(w, cab, code, steps).q, TagOf(cab), ThrottlePacket(cab, code, steps, w.h);
            && (exists s :: s in q.high && s.kind == Speed && s.Tag() == t && s.payload == p)
            && forall s :: s in q.high && s.kind == Speed && s.Tag() == t ==> s.payload == p
  {
    var q, t, p := SetThrottle(w, cab, code, steps).q, TagOf(cab), ThrottlePacket(cab, code, steps, w.h);
    var i := Find(w.q.high, t, None);
    SpeedIsAt(w, cab, code, steps);
    ThrottleDistinct(w, cab, code, steps);
    NonZero(cab);
    hide ThrottlePacket, IsStop, TagOf, Slot.Tag, Find, SetThrottle;
    assert q.high[i] in q.high;
    forall k | 0 <= k < |q.high| && q.high[k].kind == Speed && q.high[k].Tag() == t ensures k == i {
      OnlyOne(q.high, i, k);
    }
  }

  lemma OnlyOne(q: seq<Slot>, i: nat, k: nat)
    requires Distinct(q) && i < |q| && k < |q| && Clash(q[i], q[k])
    ensures i == k
  {
    hide Slot.Tag;
    assert Clash(q[k], q[i]);
  }

  lemma SpeedIsAt(w: World, cab: Cab, code: bv8, steps: Steps)
    requires !IsStop(code)
    requires var i := Find(w.q.high, TagOf(cab), None); i < |w.q.high| ==> w.q.high[i].kind == Speed
    ensures var q, t, p := SetThrottle(w, cab, code, steps).q, TagOf(cab), ThrottlePacket(cab, code, steps, w.h);
            var i := Find(w.q.high, t, None);
            i < |q.high| && q.high[i].kind == Speed && q.high[i].Tag() == t && q.high[i].payload == p
  {
    var t, p := TagOf(cab), ThrottlePacket(cab, code, steps, w.h);
    var i := Find(w.q.high, t, None);
    NewTag(Speed, p, 0, t);
    if i < |w.q.high| {
      RefilledTag(w.q.high[i], p, 0);
    }
    hide ThrottlePacket, IsStop, TagOf, Slot.Tag, Find;
  }

  lemma NonZero(cab: Cab)
    requires cab != 0
    ensures TagOf(cab) != 0
  {
  }

  /** An emergency stop is next in line, and no throttle request older than it, for that loco or for
      all if it is a broadcast, is left; everything else stays. */
  lemma EstopFlushes(w: World, cab: Cab, code: bv8, steps: Steps)
    requires IsStop(code)
    ensures var q, p := SetThrottle(w, cab, code, steps).q, ThrottlePacket(cab, code, steps, w.h);
            && q.low == w.q.low && |q.high| >= 1
            && q.high[0] == Slot(Speed, |p|, 4, p, 0)
            && forall s :: s in q.high[1..] <==> s in w.q.high && (s.kind == AccOff || (cab != 0 && s.Tag() != TagOf(cab)))
  {
    SurvivorsAre(w.q.high, TagOf(cab));
    if cab != 0 {
      NonZero(cab);
    }
    hide ThrottlePacket, IsStop, TagOf, Slot.Tag, Survivors;
  }

  // ---------------------------------------------------------------- coils

  /** The coil-off made of a coil-on is the packet that switching the same gate off would send. */
  lemma CoilOffIsTheOffPacket(address: bv16, port: bv8, gate: bool, s: Slot, now: nat)
    requires AccessoryPacket(address, port, gate, true) == [s.payload]
    ensures AccessoryPacket(address, port, gate, false) == [TurnedOff(s, now).payload]
    ensures TurnedOff(s, now).kind == AccOff && TurnedOff(s, now).word == (now + s.Tag()) % WORD
  {
    var b := AccessoryPacket(address, port, gate, true)[0];
    assert GateOff(b) == [b[0], b[1] & 0xF7];
  }

  /** The call that sends a coil-on for the last time puts its coil-off first in the high queue, due
      after the delay; and no coil-off is sent before it is due. */
  lemma CoilsAreTimed(q: Queues, force: bool, now: nat)
    ensures var (q', e) := Next(q, force, now);
            e.Some? && e.value.Sent? ==>
              var s := e.value.slot;
              && (s.kind == AccOff ==> s.word <= now)
              && (s.kind == AccOn && !Stays(s) ==> q'.high != [] && q'.high[0] == TurnedOff(s, now))
              && (s.kind == AccOn && Stays(s) ==> OneLess(s) in q'.high || OneLess(s) in q'.low)
  {
    var i, j := FirstReady(q.high, q.lastSent, now), FirstReady(q.low, q.lastSent, now);
    hide FirstReady, TurnedOff, Slot.Tag;
    if i < |q.high| {
      assert q.high[i := q.high[i]] == q.high;
      if Stays(q.high[i]) {
        assert q.high[i := OneLess(q.high[i])][i] == OneLess(q.high[i]);
      }
    } else if j < |q.low| && Stays(q.low[j]) {
      assert q.low[j := OneLess(q.low[j])][j] == OneLess(q.low[j]);
    }
  }

  // ---------------------------------------------------------------- aliasing

  /** The hypothesis of the results above is exact: a throttle request that moves a loco keeps the
      invariant of the queues if and only if it does not hit a coil-off. */
  lemma AliasingIsTheOnlyHarm(w: World, op: Op)
    requires w.h <= 127 && SlotsOk(w) && OnePerTopic(w.q)
    requires op.Throttle? && op.cab < 0x3F00
    ensures SlotsOk(Step(w, op)) <==> Unaliased(w, op)
  {
    if Unaliased(w, op) {
      StepKeepsSlots(w, op);
      hide SlotsOk, Step, Unaliased;
    } else {
      var c, w' := EffectiveCode(w.locked, op.reverse, op.code), Step(w, op);
      ThrottleReads(op.cab, c, op.steps, w.h);
      var i := Find(w.q.high, TagOf(op.cab), None);
      hide ThrottlePacket, IsStop, Moving, Halts, IsAccessory, TagOf, Slot.Tag, EffectiveCode, Find;
      assert w.q.high[i] in w.q.high;
      assert w'.q.high[i] in w'.q.high && w'.q.high[i].kind == AccOff;
      assert Moving(w'.q.high[i].payload);
    }
  }

  /** Likewise locking: it leaves nothing in the high queue that moves a loco if and only if no
      coil-off had been overwritten by then. */
  lemma LockIsSafeUnlessAliased(w: World, steps: Steps)
    requires w.h <= 127 && !w.locked
    requires forall s :: s in w.q.high ==> s.kind == Speed || s.kind == AccOff
    ensures var w' := Step(w, Lock(steps));
            (forall s :: s in w'.q.high ==> !Moving(s.payload))
              <==> (forall s :: s in w.q.high && s.kind == AccOff ==> !Moving(s.payload))
  {
    LockStops(false, 1);
    var c, w' := EffectiveCode(true, false, 1), Step(w, Lock(steps));
    var p := ThrottlePacket(0, c, steps, w.h);
    ThrottleReads(0, c, steps, w.h);
    HaltsDont(p);
    SurvivorsAre(w.q.high, 0);
    hide ThrottlePacket, IsStop, Survivors, Moving, Halts, IsAccessory, Slot.Tag, EffectiveCode;
    var first := NewSlot(Speed, p, 4, 0);
    assert w'.q.high == [first] + Survivors(w.q.high, 0);
    assert forall s :: s in w'.q.high <==> s == first || (s in w.q.high && s.kind == AccOff);
  }

  /** It does happen: a coil-off due at 65539 ms has the tag of loco 3.  The speed requested for that
      loco overwrites it, survives the lock and is sent. */
  lemma AliasingDefeatsTheLock()
    ensures var coil := AccOnOff([0x81, 0xF9], 0, 100);
            var w := Run(Start(127), [coil, Tick(true, 65439), Throttle(3, false, 0x85, Steps128), Lock(Steps128)]);
            var w' := Run(w, [Tick(true, 70000), Tick(true, 70001)]);
            && OpOk(coil) && w.locked
            && |w'.sent| == |w.sent| + 2 && Moving(w'.sent[|w.sent| + 1].Payload())
  {
    var coil := AccOnOff([0x81, 0xF9], 0, 100);
    var hit := Slot(AccOff, 3, 0, [3, 0x3F, 0x85], 65539);
    hide Run, Step, Moving, OpOk;
    RunOfTwo(Start(127), coil, Tick(true, 65439));
    var w2 := Run(Start(127), [coil, Tick(true, 65439)]);
    RunOnTwo(Start(127), [coil, Tick(true, 65439)], Throttle(3, false, 0x85, Steps128), Lock(Steps128));
    CoilQueued(Start(127));
    CoilGoes(Step(Start(127), coil));
    CoilHit(w2, w2.q.high[0]);
    var w3 := Step(w2, Throttle(3, false, 0x85, Steps128));
    CoilSurvives(w3, hit);
    var w4 := Step(w3, Lock(Steps128));
    RunOfTwo(w4, Tick(true, 70000), Tick(true, 70001));
    CoilSent(w4, w4.q.high[0], hit);
    HitMoves();
    var all := [coil, Tick(true, 65439), Throttle(3, false, 0x85, Steps128), Lock(Steps128)];
    assert [coil, Tick(true, 65439)] + [Throttle(3, false, 0x85, Steps128), Lock(Steps128)] == all;
  }

  lemma RunOfTwo(w: World, a: Op, b: Op)
    ensures Run(w, [a, b]) == Step(Step(w, a), b)
  {
    hide Step;
    assert [a, b][..1] == [a] && [a][..0] == [];
    assert Run(w, [a]) == Step(w, a);
  }

  lemma RunOnTwo(w: World, ops: seq<Op>, a: Op, b: Op)
    ensures Run(w, ops + [a, b]) == Step(Step(Run(w, ops), a), b)
  {
    hide Step;
    var n := |ops|;
    assert (ops + [a, b])[..n + 1] == ops + [a] && (ops + [a])[..n] == ops;
    assert Run(w, ops + [a]) == Step(Run(w, ops), a);
  }

  lemma CoilQueued(w: World)
    requires w.q == Queues([], [], 0)
    ensures var coil := AccOnOff([0x81, 0xF9], 0, 100);
            && OpOk(coil)
            && Step(w, coil) == w.(q := Queues([], [Slot(AccOn, 2, 0, [0x81, 0xF9], 100)], 0))
  {
  }

  lemma HitMoves()
    ensures Moving([3, 0x3F, 0x85])
  {
  }

  lemma CoilGoes(w: World)
    requires w.q == Queues([], [Slot(AccOn, 2, 0, [0x81, 0xF9], 100)], 0)
    ensures Step(w, Tick(true, 65439)).(sent := w.sent) == w.(q := Step(w, Tick(true, 65439)).q)
    ensures Step(w, Tick(true, 65439)).q == Queues([Slot(AccOff, 2, 0, [0x81, 0xF1], 65539)], [], 100)
  {
    var s := w.q.low[0];
    assert FirstReady(w.q.high, 0, 65439) == 0 && FirstReady(w.q.low, 0, 65439) == 0;
    assert TurnedOff(s, 65439) == Slot(AccOff, 2, 0, [0x81, 0xF1], 65539);
    assert Without(w.q.low, 0) == [];
  }

  lemma CoilHit(w: World, off: Slot)
    requires w.h == 127 && !w.locked && off.word == 65539 && w.q == Queues([off], [], 100)
    ensures Step(w, Throttle(3, false, 0x85, Steps128)).q
         == Queues([off.(length := 3, repeats := 0, payload := [3, 0x3F, 0x85])], [], 100)
    ensures !Step(w, Throttle(3, false, 0x85, Steps128)).locked && Step(w, Throttle(3, false, 0x85, Steps128)).h == 127
  {
    assert TagOf(3) == 3 && off.Tag() == 3;
    assert Find(w.q.high, 3, None) == 0;
    assert ThrottlePacket(3, 0x85, Steps128, 127) == [3, 0x3F, 0x85];
  }

  lemma CoilSurvives(w: World, hit: Slot)
    requires w.h == 127 && !w.locked && hit.kind == AccOff && w.q == Queues([hit], [], 100)
    ensures Step(w, Lock(Steps128)).q == Queues([Slot(Speed, 3, 4, [0, 0x3F, 0x01], 0), hit], [], 100)
    ensures Step(w, Lock(Steps128)).locked
  {
    assert EffectiveCode(true, false, 1) == 1;
    assert ThrottlePacket(0, 1, Steps128, 127) == [0, 0x3F, 0x01];
    assert w.q.high[1..] == [];
    assert Survivors(w.q.high, 0) == [hit];
  }

  lemma CoilSent(w: World, stop: Slot, hit: Slot)
    requires stop.kind == Speed && stop.word == 0 && hit.kind == AccOff && hit.word == 65539
    requires w.q == Queues([stop, hit], [], 100)
    ensures var w' := Step(Step(w, Tick(true, 70000)), Tick(true, 70001));
            |w'.sent| == |w.sent| + 2 && w'.sent[|w.sent| + 1].Payload() == hit.payload
  {
    assert stop.Tag() == 0 && hit.Tag() == 3;
    var w1 := Step(w, Tick(true, 70000));
    assert FirstReady(w.q.high, 100, 70000) == 0;
    assert Without(w.q.high, 0) == [hit];
    assert w1.q == Queues([hit], [], 0) && |w1.sent| == |w.sent| + 1;
    assert FirstReady(w1.q.high, 0, 70001) == 0;
  }
}
