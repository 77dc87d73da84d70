/** The scheduler keeps its books: over every run, what has been asked for of a packet is what has been
    sent of it, what the queues still owe, and what newer requests have withdrawn. */
module PacketLedger {
  import opened DccFraming
  import opened PacketQueue
  import opened PacketEncoders
  import opened ThrottleRuns
  import D = PacketDrain

  // ---------------------------------------------------------------- the books

  /** Transmissions of `p` that a slot stands for: its own, and those of the coil-off it will become.  A
      coil-on with a tag is repeated before it turns, so its coil-off goes out once. */
  function Owes(s: Slot, p: Packet): nat {
    (if s.payload == p then s.repeats + 1 else 0)
    + (if s.kind == AccOn && GateOff(s.payload) == p then (if s.word % HALF_WORD == 0 then s.repeats + 1 else 1) else 0)
  }

  function Owed(q: seq<Slot>, p: Packet): nat {
    if q == [] then 0 else Owed(q[..|q| - 1], p) + Owes(q[|q| - 1], p)
  }

  /** Both queues. */
  function Debt(q: Queues, p: Packet): nat {
    Owed(q.high, p) + Owed(q.low, p)
  }

  /** Transmissions of `p` in what the waveform is given; idle packets are nobody's. */
  function Airs(e: Emission, p: Packet): nat {
    if e.Sent? && e.slot.payload == p then e.repeats + 1 else 0
  }

  function Aired(sent: seq<Emission>, p: Packet): nat {
    if sent == [] then 0 else Aired(sent[..|sent| - 1], p) + Airs(sent[|sent| - 1], p)
  }

  /** `n` transmissions of `packet`, as far as they are of `p`. */
  function Times(packet: Packet, p: Packet, n: nat): nat {
    if packet == p then n else 0
  }

  /** What a request asks for. */
  function Asked(w: World, op: Op, p: Packet): nat {
    match op
    case Throttle(cab, reverse, code, steps) =>
      var c := EffectiveCode(w.locked, reverse, code);
      Times(ThrottlePacket(cab, c, steps, w.h), p, if c & 0x7F == 1 then 5 else 1)
    case Functions(cab, group, functions) => Times(FunctionPacket(cab, group, functions, w.h), p, 1)
    case Other(packet, repeats, _) => Times(Cut(packet), p, repeats + 1)
    case AccOnOff(packet, repeats, delay) =>
      Times(Cut(packet), p, repeats + 1) + Times(GateOff(Cut(packet)), p, if delay % HALF_WORD == 0 then repeats + 1 else 1)
    case Lock(steps) => if w.locked then 0 else Times(ThrottlePacket(0, EffectiveCode(true, false, 1), steps, w.h), p, 5)
    case Unlock => 0
    case Tick(_, _) => 0
  }

  /** What it replaces or flushes. */
  function Withdrawn(w: World, op: Op, p: Packet): nat {
    match op
    case Throttle(cab, reverse, code, _) =>
      if EffectiveCode(w.locked, reverse, code) & 0x7F == 1 then OwedFlushed(w.q.high, cab as nat, p)
      else OwedAt(w.q.high, Find(w.q.high, TagOf(cab), None), p)
    case Functions(cab, group, _) => OwedAt(w.q.low, Find(w.q.low, TagOf(cab), Some(Function(GroupNumber(group)))), p)
    case Lock(_) => if w.locked then 0 else OwedFlushed(w.q.high, 0, p)
    case _ => 0
  }

  function OwedAt(q: seq<Slot>, i: nat, p: Packet): nat {
    if i < |q| then Owes(q[i], p) else 0
  }

  /** Slots for the loco, or all of them, except coil-offs. */
  function OwedFlushed(q: seq<Slot>, cab: nat, p: Packet): nat {
    if q == [] then 0
    else OwedFlushed(q[..|q| - 1], cab, p) +
         (var s := q[|q| - 1]; if s.kind != AccOff && (cab == 0 || s.word % HALF_WORD == cab) then Owes(s, p) else 0)
  }

  function AllAsked(w: World, ops: seq<Op>, p: Packet): nat {
    if ops == [] then 0
    else var n := |ops| - 1; AllAsked(w, ops[..n], p) + Asked(Run(w, ops[..n]), ops[n], p)
  }

  function AllWithdrawn(w: World, ops: seq<Op>, p: Packet): nat {
    if ops == [] then 0
    else var n := |ops| - 1; AllWithdrawn(w, ops[..n], p) + Withdrawn(Run(w, ops[..n]), ops[n], p)
  }

  // ---------------------------------------------------------------- sums

  lemma {:induction false} OwedConcat(a: seq<Slot>, b: seq<Slot>, p: Packet)
    ensures Owed(a + b, p) == Owed(a, p) + Owed(b, p)
    decreases |b|
  {
    if b == [] {
      assert a + b == a;
    } else {
      var b0 := b[..|b| - 1];
      assert (a + b)[..|a + b| - 1] == a + b0;
      OwedConcat(a, b0, p);
    }
  }

  lemma OwedOne(s: Slot, p: Packet)
    ensures Owed([s], p) == Owes(s, p)
  {
    assert [s][..0] == [];
  }

  lemma OwedJoin(q: seq<Slot>, s: Slot, p: Packet)
    ensures Owed(q + [s], p) == Owed(q, p) + Owes(s, p) && Owed([s] + q, p) == Owes(s, p) + Owed(q, p)
  {
    hide Owes;
    OwedOne(s, p);
    OwedConcat(q, [s], p);
    OwedConcat([s], q, p);
  }

  /** A slot's share. */
  lemma OwedSplit(q: seq<Slot>, i: nat, s: Slot, p: Packet)
    requires i < |q|
    ensures Owed(q, p) == Owed(Without(q, i), p) + Owes(q[i], p)
    ensures Owed(q[i := s], p) == Owed(Without(q, i), p) + Owes(s, p)
  {
    hide Owed, Owes;
    var a, b := q[..i], q[i + 1..];
    OwedConcat(a, b, p);
    OwedJoin(a, q[i], p);
    OwedConcat(a + [q[i]], b, p);
    OwedJoin(a, s, p);
    OwedConcat(a + [s], b, p);
    assert q == a + [q[i]] + b && q[i := s] == a + [s] + b;
  }

  // ---------------------------------------------------------------- steps

  /** What one transmission leaves of a slot's debt. */
  lemma SlotPays(s: Slot, now: nat, p: Packet)
    ensures Airs(EmissionOf(s), p) + (if Stays(s) then Owes(OneLess(s), p) else if s.kind == AccOn then Owes(TurnedOff(s, now), p) else 0)
         == Owes(s, p)
  {
  }

  /** A call pays exactly what it sends. */
  lemma NextPays(q: Queues, force: bool, now: nat, p: Packet)
    ensures var (q', e) := Next(q, force, now);
            Debt(q', p) + (if e.Some? then Airs(e.value, p) else 0) == Debt(q, p)
  {
    var i, j := FirstReady(q.high, q.lastSent, now), FirstReady(q.low, q.lastSent, now);
    hide FirstReady, Owed, Owes, TurnedOff, OneLess, Stays, EmissionOf, Airs;
    if i < |q.high| {
      var s := q.high[i];
      HighPays(q, i, now, p);
    } else if j < |q.low| {
      LowPays(q, j, now, p);
    }
    IdlePays(p);
  }

  lemma IdlePays(p: Packet)
    ensures Airs(Idle, p) == 0
  {
  }

  lemma HighPays(q: Queues, i: nat, now: nat, p: Packet)
    requires i < |q.high|
    ensures Debt(TakeHigh(q, i, now), p) + Airs(EmissionOf(q.high[i]), p) == Debt(q, p)
  {
    var s := q.high[i];
    SlotPays(s, now, p);
    OwedSplit(q.high, i, if Stays(s) then OneLess(s) else s, p);
    OwedJoin(Without(q.high, i), TurnedOff(s, now), p);
    hide Owed, Owes, TurnedOff, OneLess, Stays, EmissionOf, Airs;
  }

  lemma LowPays(q: Queues, i: nat, now: nat, p: Packet)
    requires i < |q.low|
    ensures Debt(TakeLow(q, i, now), p) + Airs(EmissionOf(q.low[i]), p) == Debt(q, p)
  {
    var s := q.low[i];
    SlotPays(s, now, p);
    OwedSplit(q.low, i, if Stays(s) then OneLess(s) else s, p);
    OwedJoin(q.high, TurnedOff(s, now), p);
    hide Owed, Owes, TurnedOff, OneLess, Stays, EmissionOf, Airs;
  }

  lemma {:induction false} FlushPays(q: seq<Slot>, loco: nat, p: Packet)
    ensures Owed(Survivors(q, loco), p) + OwedFlushed(q, loco, p) == Owed(q, p)
  {
    if q != [] {
      var n := |q| - 1;
      FlushPays(q[..n], loco, p);
      SurvivorsLast(q, loco);
      var r := Survivors(q[..n], loco);
      OwedJoin(r, q[n], p);
      assert r + [] == r;
      hide Owes, Survivors;
    }
  }

  lemma {:induction false} SurvivorsLast(q: seq<Slot>, loco: nat)
    requires q != []
    ensures var n := |q| - 1;
            Survivors(q, loco) == Survivors(q[..n], loco) + if Flushed(q[n], loco) then [] else [q[n]]
    decreases |q|
  {
    hide Flushed;
    var n := |q| - 1;
    if n == 0 {
      assert q[1..] == [] && q[..0] == [];
    } else {
      SurvivorsLast(q[1..], loco);
      assert q[1..][n - 1] == q[n] && q[1..][..n - 1] == q[..n][1..] && q[..n][0] == q[0];
      SurvivorsOpen(q, loco);
      SurvivorsOpen(q[..n], loco);
      hide Survivors;
      var first := if Flushed(q[0], loco) then [] else [q[0]];
      var last := if Flushed(q[n], loco) then [] else [q[n]];
      assert first + (Survivors(q[..n][1..], loco) + last) == (first + Survivors(q[..n][1..], loco)) + last;
    }
  }

  lemma SurvivorsOpen(q: seq<Slot>, loco: nat)
    requires q != []
    ensures Survivors(q, loco) == (if Flushed(q[0], loco) then [] else [q[0]]) + Survivors(q[1..], loco)
  {
    hide Flushed;
  }

  /** A slot refilled or joined. */
  lemma PlacedPays(q: seq<Slot>, i: nat, s: Slot, p: Packet)
    requires i <= |q| && |s.payload| <= MAX_PACKET_SIZE && s.kind != AccOn && (i < |q| ==> q[i].kind != AccOn)
    ensures Owed(Placed(q, i, s), p) + OwedAt(q, i, p) == Owed(q, p) + Times(s.payload, p, s.repeats + 1)
  {
    if i < |q| {
      var r := Refilled(q[i], s.payload, s.repeats);
      assert Owes(r, p) == Times(s.payload, p, s.repeats + 1);
      hide Owes;
      OwedSplit(q, i, r, p);
    } else {
      assert Owes(s, p) == Times(s.payload, p, s.repeats + 1);
      hide Owes;
      OwedJoin(q, s, p);
    }
    hide Owed;
  }

  /** Coil-ons wait in the low queue only. */
  ghost predicate NoCoilOns(q: seq<Slot>) {
    forall s :: s in q ==> s.kind != AccOn
  }

  lemma ThrottlePays(w: World, cab: Cab, code: bv8, steps: Steps, p: Packet)
    requires NoCoilOns(w.q.high)
    ensures var w', b := SetThrottle(w, cab, code, steps), ThrottlePacket(cab, code, steps, w.h);
            && w'.sent == w.sent
            && Debt(w'.q, p) + (if code & 0x7F == 1 then OwedFlushed(w.q.high, cab as nat, p) else OwedAt(w.q.high, Find(w.q.high, TagOf(cab), None), p))
               == Debt(w.q, p) + Times(b, p, if code & 0x7F == 1 then 5 else 1)
  {
    var b := ThrottlePacket(cab, code, steps, w.h);
    hide Owed, OwedFlushed, OwedAt, Survivors, Placed, ThrottlePacket;
    if IsStop(code) {
      var s := NewSlot(Speed, b, 4, 0);
      FlushPays(w.q.high, cab as nat, p);
      OwedJoin(Survivors(w.q.high, cab as nat), s, p);
      assert Owes(s, p) == Times(b, p, 5);
    } else {
      var i := Find(w.q.high, TagOf(cab), None);
      assert i < |w.q.high| ==> w.q.high[i] in w.q.high;
      PlacedPays(w.q.high, i, NewSlot(Speed, b, 0, TagOf(cab)), p);
    }
  }

  lemma FunctionsPay(w: World, cab: Cab, g: Group, f: bv32, p: Packet)
    ensures var w' := SetFunctions(w, cab, g, f);
            && w'.sent == w.sent
            && Debt(w'.q, p) + OwedAt(w.q.low, Find(w.q.low, TagOf(cab), Some(Function(GroupNumber(g)))), p)
               == Debt(w.q, p) + Times(FunctionPacket(cab, g, f, w.h), p, 1)
  {
    var b, n := FunctionPacket(cab, g, f, w.h), GroupNumber(g);
    hide Owed, OwedAt, Placed, FunctionPacket;
    PlacedPays(w.q.low, Find(w.q.low, TagOf(cab), Some(Function(n))), NewSlot(Function(n), b, 0, TagOf(cab)), p);
  }

  /** The books balance over every step. */
  lemma StepBalances(w: World, op: Op, p: Packet)
    requires NoCoilOns(w.q.high)
    ensures var w' := Step(w, op);
            Debt(w'.q, p) + Aired(w'.sent, p) + Withdrawn(w, op, p) == Debt(w.q, p) + Aired(w.sent, p) + Asked(w, op, p)
  {
    hide Owed, OwedFlushed, OwedAt, Find, SetThrottle, SetFunctions, Next, EffectiveCode, ThrottlePacket, FunctionPacket, Aired;
    match op
    case Throttle(cab, reverse, code, steps) =>
      ThrottlePays(w, cab, EffectiveCode(w.locked, reverse, code), steps, p);
    case Functions(cab, group, functions) =>
      FunctionsPay(w, cab, group, functions, p);
    case Other(packet, repeats, cab) =>
      var s := NewSlot(Normal, packet, repeats, TagOf(cab));
      OwedJoin(w.q.low, s, p);
    case AccOnOff(packet, repeats, delay) =>
      var s := NewSlot(AccOn, packet, repeats, delay);
      OwedJoin(w.q.low, s, p);
    case Lock(steps) =>
      LockStops(false, 1);
      if !w.locked {
        ThrottlePays(w.(locked := true), 0, EffectiveCode(true, false, 1), steps, p);
      }
    case Unlock =>
    case Tick(force, now) =>
      NextPays(w.q, force, now, p);
      var e := Next(w.q, force, now).1;
      if e.Some? {
        AiredMore(w.sent, e.value, p);
      }
  }

  lemma AiredMore(sent: seq<Emission>, e: Emission, p: Packet)
    ensures Aired(sent + [e], p) == Aired(sent, p) + Airs(e, p)
  {
    assert (sent + [e])[..|sent|] == sent;
  }

  lemma StepNoCoilOns(w: World, op: Op)
    requires NoCoilOns(w.q.high)
    ensures NoCoilOns(Step(w, op).q.high)
  {
    hide Find, Survivors, EffectiveCode, ThrottlePacket, FunctionPacket, IsStop, TagOf, FirstReady;
    match op
    case Throttle(cab, reverse, code, steps) =>
      SurvivorsAre(w.q.high, TagOf(cab));
      var i := Find(w.q.high, TagOf(cab), None);
      assert i < |w.q.high| ==> w.q.high[i] in w.q.high;
    case Lock(steps) =>
      SurvivorsAre(w.q.high, 0);
    case Tick(force, now) =>
      NextAre(w.q, force, now);
    case _ =>
  }

  // ---------------------------------------------------------------- main results

  /** In every run, whatever is requested and however the queues are served, aliased or not: of every
      packet, what has been sent, what is still owed and what was withdrawn by newer requests add up to
      what was asked for. */
  lemma {:induction false} BooksBalance(h: Cab, ops: seq<Op>, p: Packet)
    ensures var w := Run(Start(h), ops);
            && NoCoilOns(w.q.high)
            && Aired(w.sent, p) + Debt(w.q, p) + AllWithdrawn(Start(h), ops, p) == AllAsked(Start(h), ops, p)
  {
    hide Step, NoCoilOns, Asked, Withdrawn;
    if ops == [] {
      assert NoCoilOns([]) by { NoneIsNone(); }
    } else {
      var n := |ops| - 1;
      BooksBalance(h, ops[..n], p);
      StepBalances(Run(Start(h), ops[..n]), ops[n], p);
      StepNoCoilOns(Run(Start(h), ops[..n]), ops[n]);
    }
  }

  lemma NoneIsNone()
    ensures NoCoilOns([])
  {
  }

  lemma {:induction false} NothingOwed(q: seq<Slot>, p: Packet)
    requires q == []
    ensures Owed(q, p) == 0
  {
  }

  /** The main loop running at these times. */
  function Passes(times: seq<nat>): (r: seq<Op>)
    ensures |r| == |times| && forall i :: 0 <= i < |r| ==> r[i] == Tick(true, times[i])
  {
    seq(|times|, i requires 0 <= i < |times| => Tick(true, times[i]))
  }

  lemma {:induction false} PassesServe(w: World, times: seq<nat>, p: Packet)
    ensures var w' := Run(w, Passes(times));
            && w'.q == D.After(w.q, times)
            && Debt(w'.q, p) + Aired(w'.sent, p) == Debt(w.q, p) + Aired(w.sent, p)
  {
    if times != [] {
      var n := |times| - 1;
      PassesServe(w, times[..n], p);
      assert Passes(times)[..n] == Passes(times[..n]);
      var w1 := Run(w, Passes(times[..n]));
      D.PassIsForced(w1.q, times[n]);
      NextPays(w1.q, true, times[n], p);
      var e := Next(w1.q, true, times[n]).1;
      if e.Some? {
        AiredMore(w1.sent, e.value, p);
      }
      hide Next, Owed, Aired, D.Pass;
    }
  }

  /** With no further requests the main loop, running at least every g, empties both queues in bounded
      time, and by then has sent every packet exactly as often as was owed. */
  lemma Delivered(w: World, d: nat, t: nat, g: nat, times: seq<nat>, p: Packet)
    requires D.Due(w.q, d, t) && D.Ordered(times, d) && D.Frequent(times, g) && g > 0 && times != []
    requires times[0] <= t + g && times[|times| - 1] >= t + D.Measure(w.q) * (d + 2 * g)
    ensures var w' := Run(w, Passes(times));
            w'.q.high == [] && w'.q.low == [] && Aired(w'.sent, p) == Aired(w.sent, p) + Debt(w.q, p)
  {
    D.Drains(w.q, d, t, g, times);
    PassesServe(w, times, p);
    hide Run, D.After, D.Measure, D.DueBy, Passes, Aired;
  }

  /** So a packet requested is sent repeats + 1 times, on top of what was owed of the same packet. */
  lemma OtherIsDelivered(w: World, packet: Packet, repeats: nat, cab: Cab, d: nat, t: nat, g: nat, times: seq<nat>)
    requires var w1 := Step(w, Other(packet, repeats, cab));
             && D.Due(w1.q, d, t) && D.Ordered(times, d) && D.Frequent(times, g) && g > 0 && times != []
             && times[0] <= t + g && times[|times| - 1] >= t + D.Measure(w1.q) * (d + 2 * g)
    ensures var w' := Run(Step(w, Other(packet, repeats, cab)), Passes(times));
            Aired(w'.sent, Cut(packet)) == Aired(w.sent, Cut(packet)) + Debt(w.q, Cut(packet)) + repeats + 1
  {
    var w1 := Step(w, Other(packet, repeats, cab));
    var s := NewSlot(Normal, packet, repeats, TagOf(cab));
    OwedJoin(w.q.low, s, Cut(packet));
    assert Owes(s, Cut(packet)) == repeats + 1;
    Delivered(w1, d, t, g, times, Cut(packet));
    hide Run, D.Measure, D.DueBy, Passes, Aired, Owed;
  }
}
