/** The order of service: which packet goes next, what is left behind, and where each kind of request
    waits for its turn. */
module PacketOrder {
  import opened DccFraming
  import opened PacketQueue
  import opened PacketEncoders
  import opened ThrottleRuns

  // ---------------------------------------------------------------- the next packet

  /** Slot i is the first of a queue that need not wait. */
  ghost predicate IsNext(q: seq<Slot>, i: nat, lastSent: nat, now: nat) {
    i < |q| && !Waits(q[i], lastSent, now) && forall k :: 0 <= k < i ==> Waits(q[k], lastSent, now)
  }

  ghost predicate AllWait(q: seq<Slot>, lastSent: nat, now: nat) {
    forall k :: 0 <= k < |q| ==> Waits(q[k], lastSent, now)
  }

  /** A slot goes out whole if it has no tag, and once if it has one. */
  function Goes(s: Slot): Option<Emission> {
    Some(Sent(s, if s.word % HALF_WORD == 0 then s.repeats else 0))
  }

  /** What is sent is the first slot of the high queue that need not wait; of the low queue only if the
      whole high queue waits; and an idle packet only if both wait and one is demanded. */
  lemma HighBeforeLow(q: Queues, force: bool, now: nat)
    ensures var e := Next(q, force, now).1;
            && (forall i: nat :: IsNext(q.high, i, q.lastSent, now) ==> e == Goes(q.high[i]))
            && (AllWait(q.high, q.lastSent, now) ==>
                  && (forall j: nat :: IsNext(q.low, j, q.lastSent, now) ==> e == Goes(q.low[j]))
                  && (AllWait(q.low, q.lastSent, now) ==> e == if force then Some(Idle) else None))
  {
    var i, j := FirstReady(q.high, q.lastSent, now), FirstReady(q.low, q.lastSent, now);
    hide FirstReady, Waits, TakeHigh, TakeLow;
    forall k: nat | IsNext(q.high, k, q.lastSent, now) ensures k == i {
      NextIsFirst(q.high, k, q.lastSent, now);
    }
    forall k: nat | IsNext(q.low, k, q.lastSent, now) ensures k == j {
      NextIsFirst(q.low, k, q.lastSent, now);
    }
    hide IsNext;
  }

  lemma NextIsFirst(q: seq<Slot>, k: nat, lastSent: nat, now: nat)
    requires IsNext(q, k, lastSent, now)
    ensures FirstReady(q, lastSent, now) == k
  {
    hide FirstReady, Waits;
  }

  /** One of the three is always the case. */
  lemma {:induction false} NextOrAll(q: seq<Slot>, lastSent: nat, now: nat)
    ensures AllWait(q, lastSent, now) <==> !exists i :: IsNext(q, i, lastSent, now)
  {
    var i := FirstReady(q, lastSent, now);
    hide FirstReady, Waits;
    if i < |q| {
      assert IsNext(q, i, lastSent, now);
    }
  }

  /** A sent slot with a tag and repeats left stays where it is with one repeat less; any other is gone,
      and a coil-on leaves its coil-off. */
  function Leaves(s: Slot, now: nat): (seq<Slot>, seq<Slot>) {
    if s.word % HALF_WORD != 0 && s.repeats > 0 then ([], [s.(repeats := s.repeats - 1)])
    else if s.kind == AccOn then ([TurnedOff(s, now)], [])
    else ([], [])
  }

  lemma SplitIsNext(q: seq<Slot>, a: seq<Slot>, s: Slot, b: seq<Slot>, lastSent: nat, now: nat)
    requires q == a + [s] + b && !Waits(s, lastSent, now) && forall x :: x in a ==> Waits(x, lastSent, now)
    ensures FirstReady(q, lastSent, now) == |a| && q[|a|] == s && Without(q, |a|) == a + b
    ensures forall x :: q[|a| := x] == a + [x] + b
  {
    hide FirstReady, Waits;
    forall k | 0 <= k < |a| ensures Waits(q[k], lastSent, now) {
      assert q[k] == a[k];
    }
    NextIsFirst(q, |a|, lastSent, now);
  }

  /** Around the slot sent nothing moves: what was in front of it waits, what was behind it follows, and
      a coil-off jumps the high queue. */
  lemma OthersKeepTheirPlace(q: Queues, force: bool, now: nat, a: seq<Slot>, s: Slot, b: seq<Slot>)
    requires forall x :: x in a ==> Waits(x, q.lastSent, now)
    requires !Waits(s, q.lastSent, now)
    ensures q.high == a + [s] + b ==>
              var q', l := Next(q, force, now).0, Leaves(s, now);
              q'.high == l.0 + a + l.1 + b && q'.low == q.low && q'.lastSent == s.word % HALF_WORD
    ensures AllWait(q.high, q.lastSent, now) && q.low == a + [s] + b ==>
              var q', l := Next(q, force, now).0, Leaves(s, now);
              q'.high == l.0 + q.high && q'.low == a + l.1 + b && q'.lastSent == s.word % HALF_WORD
  {
    var i, j := FirstReady(q.high, q.lastSent, now), FirstReady(q.low, q.lastSent, now);
    hide FirstReady, Waits, TurnedOff;
    if q.high == a + [s] + b {
      SplitIsNext(q.high, a, s, b, q.lastSent, now);
      assert i == |a|;
    }
    if AllWait(q.high, q.lastSent, now) && q.low == a + [s] + b {
      SplitIsNext(q.low, a, s, b, q.lastSent, now);
      assert i == |q.high| && j == |a|;
    }
  }

  // ---------------------------------------------------------------- a stop

  /** A slot without a tag that is no coil-off never waits. */
  lemma UntaggedIsFirst(q: Queues, s: Slot, force: bool, now: nat)
    requires q.high != [] && q.high[0] == s && s.word == 0 && s.kind != AccOff
    ensures Next(q, force, now).1 == Some(Sent(s, s.repeats))
  {
    HighBeforeLow(q, force, now);
    assert IsNext(q.high, 0, q.lastSent, now);
    hide Next;
  }

  /** After an emergency stop, for a loco or for all, whatever waits in either queue and whenever the
      main loop runs: the very next packet is that stop, with four repeats left to the waveform. */
  lemma StopIsNext(w: World, cab: Cab, code: bv8, steps: Steps, force: bool, now: nat)
    requires IsStop(code)
    ensures var p := ThrottlePacket(cab, code, steps, w.h);
            Next(SetThrottle(w, cab, code, steps).q, force, now).1 == Some(Sent(Slot(Speed, |p|, 4, p, 0), 4))
  {
    var q, p := SetThrottle(w, cab, code, steps).q, ThrottlePacket(cab, code, steps, w.h);
    EstopFlushes(w, cab, code, steps);
    hide ThrottlePacket, SetThrottle, Next;
    UntaggedIsFirst(q, Slot(Speed, |p|, 4, p, 0), force, now);
  }

  /** So it is when the lock is set. */
  lemma LockIsNext(w: World, steps: Steps, force: bool, now: nat)
    requires !w.locked
    ensures var p := AddressBytes(0, w.h) + SpeedBytes(1, steps);
            Next(Step(w, Lock(steps)).q, force, now).1 == Some(Sent(Slot(Speed, |p|, 4, p, 0), 4))
  {
    LockStops(false, 1);
    assert EffectiveCode(true, false, 1) == 1;
    hide EffectiveCode, Next, SetThrottle, IsStop;
    StopIsNext(w.(locked := true), 0, 1, steps, force, now);
  }

  // ---------------------------------------------------------------- where requests wait

  /** A packet joins the end of the low queue, and nothing else changes. */
  lemma OtherIsQueued(w: World, packet: Packet, repeats: nat, cab: Cab)
    ensures var w', n := Step(w, Other(packet, repeats, cab)), |w.q.low|;
            && |w'.q.low| == n + 1 && w'.q.low[..n] == w.q.low
            && w'.q.low[n] == Slot(Normal, |packet|, repeats, Cut(packet), cab as nat)
            && w' == w.(q := w.q.(low := w'.q.low))
  {
  }

  /** So does a coil-on, with its delay. */
  lemma CoilOnIsQueued(w: World, packet: Packet, repeats: nat, delay: nat)
    ensures var w', n := Step(w, AccOnOff(packet, repeats, delay)), |w.q.low|;
            && |w'.q.low| == n + 1 && w'.q.low[..n] == w.q.low
            && w'.q.low[n] == Slot(AccOn, |packet|, repeats, Cut(packet), delay)
            && w' == w.(q := w.q.(low := w'.q.low))
  {
  }

  /** A function group takes the place of the request for the same loco and group, if there is one in
      the low queue, and joins the end if there is not; every other slot stays. */
  lemma FunctionIsQueued(w: World, cab: Cab, g: Group, f: bv32) returns (i: nat)
    ensures var w', kind, p := Step(w, Functions(cab, g, f)), Function(GroupNumber(g)), FunctionPacket(cab, g, f, w.h);
            && i <= |w.q.low| && (forall k :: 0 <= k < i ==> !(w.q.low[k].kind == kind && w.q.low[k].Tag() == cab as nat))
            && (if i < |w.q.low| then
                  && w.q.low[i].kind == kind && w.q.low[i].Tag() == cab as nat
                  && w'.q.low == w.q.low[i := Slot(kind, |p|, 0, p, w.q.low[i].word)]
                else
                  w'.q.low == w.q.low + [Slot(kind, |p|, 0, p, cab as nat)])
            && w'.q.high == w.q.high && w'.q.lastSent == w.q.lastSent && w'.sent == w.sent && w'.locked == w.locked
  {
    i := Find(w.q.low, TagOf(cab), Some(Function(GroupNumber(g))));
    hide FunctionPacket, Slot.Tag, Find;
  }
}
