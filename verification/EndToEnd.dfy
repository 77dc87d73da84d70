/** From the request to the receiver: what the scheduler sends is handed to the waveform, what the
    waveform puts on the track is heard, and what is heard is what was requested. */
module EndToEnd {
  import opened DccFraming
  import X = DccTransmitter
  import Q = PacketQueue
  import P = PacketEncoders
  import S = DccSniffer
  import T = ThrottleRuns

  /** What an emission hands to the waveform; packets that are too long are refused there. */
  function JobOf(e: Q.Emission): seq<X.Job> {
    match e
    case Idle => [X.Job(Q.IDLE, 0)]
    case Sent(slot, repeats) => if slot.length <= MAX_PACKET_SIZE then [X.Job(slot.payload, repeats)] else []
  }

  function Jobs(sent: seq<Q.Emission>): seq<X.Job> {
    if sent == [] then [] else Jobs(sent[..|sent| - 1]) + JobOf(sent[|sent| - 1])
  }

  /** The waveform has been given the emissions, in order, perhaps not yet the last ones. */
  predicate Feeds(sent: seq<Q.Emission>, x: X.World) {
    x.log.requested <= Jobs(sent)
  }

  /** A packet without its checksum. */
  function Bare(p: Packet): Packet {
    if p == [] then [] else p[..|p| - 1]
  }

  // ---------------------------------------------------------------- jobs and emissions

  /** A job beyond those of the first n emissions belongs to a later one. */
  lemma {:induction false} JobIsOfLater(sent: seq<Q.Emission>, n: nat, k: nat) returns (j: nat)
    requires n <= |sent| && |Jobs(sent[..n])| <= k < |Jobs(sent)|
    ensures n <= j < |sent| && JobOf(sent[j]) == [Jobs(sent)[k]]
    decreases |sent|
  {
    var m := |sent| - 1;
    assert sent[..|sent|] == sent;
    var front := sent[..m];
    if k < |Jobs(front)| {
      assert front[..n] == sent[..n];
      j := JobIsOfLater(front, n, k);
    } else {
      j := m;
    }
  }

  /** An airing's job is behind those of the airings before it. */
  lemma {:induction false} JobOfAiring(aired: seq<X.Airing>, i: nat)
    requires i < |aired|
    ensures var k := |X.JobsOf(aired[..i])|;
            |aired[i].job| == 1 ==> k < |X.JobsOf(aired)| && X.JobsOf(aired)[k] == aired[i].job[0]
    ensures |X.JobsOf(aired[..i])| <= |X.JobsOf(aired)|
    decreases |aired|
  {
    var m := |aired| - 1;
    if i < m {
      assert aired[..m][..i] == aired[..i];
      JobOfAiring(aired[..m], i);
    }
  }

  lemma JobsGrow(aired: seq<X.Airing>, i: nat, j: nat)
    requires i <= j < |aired|
    ensures |X.JobsOf(aired[..i])| <= |X.JobsOf(aired[..j])|
  {
    if i < j {
      assert aired[..j][..i] == aired[..i];
      JobOfAiring(aired[..j], i);
    }
  }

  /** The packet of an airing is a filler, or that of an emission: a later one than the first n, if all
      their jobs have been aired before. */
  lemma AiringIsOfEmission(sent: seq<Q.Emission>, n: nat, es: seq<X.Event>, i: nat)
    requires var x := X.Run(X.Start(true), es);
             n <= |sent| && Feeds(sent, x) && i < |x.log.aired| && |X.JobsOf(x.log.aired[..i])| >= |Jobs(sent[..n])|
    ensures var a := X.Run(X.Start(true), es).log.aired[i];
            || a.packet == X.IDLE_PACKET
            || exists j :: n <= j < |sent| && a.job == JobOf(sent[j]) && a.packet == Checksummed(sent[j].Payload())
  {
    var x := X.Run(X.Start(true), es);
    var a, k := x.log.aired[i], |X.JobsOf(x.log.aired[..i])|;
    X.AiringsAreWhole(true, es, i);
    X.HandOver(true, es);
    JobOfAiring(x.log.aired, i);
    hide X.Run, Jobs, X.JobsOf, X.InFlight, Checksummed;
    if a.job != [] {
      assert Jobs(sent)[k] == a.job[0];
      var j := JobIsOfLater(sent, n, k);
      assert a.job == JobOf(sent[j]);
      PayloadOfJob(sent[j]);
    }
  }

  lemma PayloadOfJob(e: Q.Emission)
    ensures JobOf(e) != [] ==> JobOf(e)[0].payload == e.Payload()
  {
  }

  // ---------------------------------------------------------------- the lock

  lemma BareChecksummed(p: Packet)
    ensures Bare(Checksummed(p)) == p
  {
  }

  /** The idle packet that the scheduler sends is the one that the waveform fills in. */
  lemma IdleIsTheFiller()
    ensures Checksummed(Q.IDLE) == X.Filler(true) == X.IDLE_PACKET
  {
    X.MeetsTheStandard(true);
  }

  lemma FillerMovesNothing()
    ensures !T.Moving(Bare(X.IDLE_PACKET))
  {
  }

  /** The emergency stop lock as far as the track: once every packet handed over before the lock has been
      put on the track, nothing that goes there moves a loco, whatever is requested, however the
      queues are served and however thread and interrupt interleave. */
  lemma LockReachesTheTrack(h: P.Cab, before: seq<T.Op>, steps: P.Steps, after: seq<T.Op>, es: seq<X.Event>, i: nat)
    requires h <= 127 && T.RunOk(T.Start(h), before)
    requires forall k :: 0 <= k < |after| ==> T.OpOk(after[k]) && !after[k].Unlock?
    requires var w := T.Step(T.Run(T.Start(h), before), T.Lock(steps));
             var x := X.Run(X.Start(true), es);
             && Feeds(T.Run(w, after).sent, x) && i < |x.log.aired|
             && |X.JobsOf(x.log.aired[..i])| >= |Jobs(w.sent)|
    ensures !T.Moving(Bare(X.Run(X.Start(true), es).log.aired[i].packet))
  {
    var w := T.Step(T.Run(T.Start(h), before), T.Lock(steps));
    var w', x := T.Run(w, after), X.Run(X.Start(true), es);
    T.EstopLockHolds(h, before, steps, after);
    hide T.Run, T.Step, X.Run, T.RunOk, T.OpOk, Jobs, X.JobsOf, T.Moving, Checksummed;
    var n := |w.sent|;
    AiringIsOfEmission(w'.sent, n, es, i);
    var p := x.log.aired[i].packet;
    if p == X.IDLE_PACKET {
      FillerMovesNothing();
    } else {
      var j :| n <= j < |w'.sent| && x.log.aired[i].job == JobOf(w'.sent[j]) && p == Checksummed(w'.sent[j].Payload());
      BareChecksummed(w'.sent[j].Payload());
      assert T.Harmless(w'.sent[j]);
    }
  }

  // ---------------------------------------------------------------- what is heard

  /** A packet on the track is that of an airing, and a late one that of a late airing. */
  lemma {:induction false} OnTrackIs(aired: seq<X.Airing>, i: nat, k: nat) returns (j: nat)
    requires i <= |aired| && |X.OnTrack(aired[..i])| <= k < |X.OnTrack(aired)|
    ensures i <= j < |aired| && X.OnTrack(aired)[k] == aired[j].packet
    decreases |aired|
  {
    var m := |aired| - 1;
    assert aired[..|aired|] == aired;
    var front := aired[..m];
    if k < |X.OnTrack(front)| {
      assert front[..i] == aired[..i];
      j := OnTrackIs(front, i, k);
    } else {
      j := m;
    }
  }

  /** A receiver hears packets on the track, in their order. */
  lemma HeardIsOnTrack(es: seq<X.Event>)
    requires X.Run(X.Start(true), es).log.started
    ensures var x := X.Run(X.Start(true), es);
            Listen(x.log.bits).packets <= X.OnTrack(x.log.aired)
  {
    X.FramingRoundTrip(true, es);
    hide X.Run, X.OnTrack, Listen;
  }

  /** The lock as a receiver hears it: behind the packets that were on their way when the lock came,
      every packet heard leaves the locos where they are. */
  lemma LockIsHeard(h: P.Cab, before: seq<T.Op>, steps: P.Steps, after: seq<T.Op>, es: seq<X.Event>, i: nat, k: nat)
    requires h <= 127 && T.RunOk(T.Start(h), before)
    requires forall k :: 0 <= k < |after| ==> T.OpOk(after[k]) && !after[k].Unlock?
    requires var w := T.Step(T.Run(T.Start(h), before), T.Lock(steps));
             var x := X.Run(X.Start(true), es);
             && Feeds(T.Run(w, after).sent, x) && x.log.started
             && i <= |x.log.aired| && |X.JobsOf(x.log.aired[..i])| >= |Jobs(w.sent)|
             && |X.OnTrack(x.log.aired[..i])| <= k < |Listen(x.log.bits).packets|
    ensures !T.Moving(Bare(Listen(X.Run(X.Start(true), es).log.bits).packets[k]))
  {
    HeardIsOnTrack(es);
    var x := X.Run(X.Start(true), es);
    hide X.Run, T.Run, T.Step, T.RunOk, T.OpOk, Jobs, X.JobsOf, X.OnTrack, Listen, T.Moving, Feeds;
    var j := OnTrackIs(x.log.aired, i, k);
    JobsGrow(x.log.aired, i, j);
    LockReachesTheTrack(h, before, steps, after, es, j);
  }

  // ---------------------------------------------------------------- speed

  /** The speed and direction that a request asks for: the direction is turned round if the loco runs
      reversed in its consist. */
  predicate Tells(op: T.Op, code: bv8)
    requires op.Throttle?
  {
    code & 0x7F == op.code & 0x7F && (code & 0x80 != 0 <==> (op.code & 0x80 != 0) != op.reverse)
  }

  /** The sniffer has heard that speed of that loco: it remembers it, and passes it on if it is new. */
  predicate Learns(slots: S.Slots, p: S.Parsed, op: T.Op)
    requires op.Throttle?
  {
    var now, code := S.Get(slots, op.cab), S.Get(p.slots, op.cab).speedCode;
    && p.slots == slots[S.Key(op.cab) := now.(speedCode := code)] && Tells(op, code)
    && p.changed == (now.speedCode != code)
    && p.actions == (if p.changed then [S.SetThrottle(op.cab, op.code & 0x7F, (op.code & 0x80 != 0) != op.reverse)] else [])
  }

  /** A speed from the request to the sniffer: ops[i] is the last request of the run that says what speed
      the loco is to have.  Whenever the scheduler then sends from that loco's speed slot, what the
      waveform puts on the track for that emission, and a receiver hears, is decoded as the speed and
      direction asked for. */
  lemma ThrottleIsHeard(h: P.Cab, ops: seq<T.Op>, i: nat, cab: P.Cab, force: bool, now: nat,
                        es: seq<X.Event>, k: nat, slots: S.Slots, beyond: bv8)
    requires h <= 127 && T.RunOk(T.Start(h), ops) && 0 < cab < 0x3F00
    requires T.LastSpeed(h, ops, i, cab) && ops[i].steps == P.Steps128
    requires var e := Q.Next(T.Run(T.Start(h), ops).q, force, now).1;
             && e.Some? && e.value.Sent? && e.value.slot.kind == Q.Speed && e.value.slot.Tag() == T.TagOf(cab)
             && var x := X.Run(X.Start(true), es);
                k < |x.log.aired| && x.log.aired[k].job != [] && x.log.aired[k].job == JobOf(e.value)
    ensures var x := X.Run(X.Start(true), es);
            && Learns(slots, S.Decode(slots, x.log.aired[k].packet, beyond), ops[i])
            && x.log.aired[k].packet in X.OnTrack(x.log.aired)
  {
    var w, x := T.Run(T.Start(h), ops), X.Run(X.Start(true), es);
    var e := Q.Next(w.q, force, now).1.value;
    T.LatestWins(h, ops, force, now);
    T.LastIsLatest(h, ops, i, cab);
    T.NonZero(cab);
    X.AiringsAreWhole(true, es, k);
    PayloadOfJob(e);
    AiredIsOnTrack(x.log.aired, k);
    assert e.slot.payload == T.RequestedPacket(ops[i], h) by {
      hide X.Run, T.Run, Q.Next, T.RunOk, S.Decode, T.RequestedPacket, T.LastSpeed, Q.Slot.Tag, X.OnTrack;
    }
    assert ops[i].Throttle? && ops[i].cab == cab;
    hide X.Run, T.Run, Q.Next, T.RunOk, T.LastSpeed, X.OnTrack, Checksummed, S.Decode, Learns, T.RequestedPacket, T.Current, T.Remembered;
    RequestIsLearnt(ops[i], h, slots, beyond);
  }

  lemma RequestIsLearnt(op: T.Op, h: P.Cab, slots: S.Slots, beyond: bv8)
    requires op.Throttle? && op.steps == P.Steps128 && h <= 127 && 0 < op.cab < 0x3F00
    ensures Learns(slots, S.Decode(slots, Checksummed(T.RequestedPacket(op, h)), beyond), op)
  {
    hide *;
    var c, p := T.EffectiveCode(false, op.reverse, op.code), S.Decode(slots, Checksummed(T.RequestedPacket(op, h)), beyond);
    CodeTells(op);
    S.ThrottleArrives(slots, op.cab, c, h, beyond);
    PacketOf(op, h);
    CodeIsLearnt(slots, p, op, c);
  }

  lemma PacketOf(op: T.Op, h: P.Cab)
    requires op.Throttle? && op.steps == P.Steps128
    ensures T.RequestedPacket(op, h) == P.ThrottlePacket(op.cab, T.EffectiveCode(false, op.reverse, op.code), P.Steps128, h)
  {
    hide P.ThrottlePacket, T.EffectiveCode;
  }

  lemma CodeTells(op: T.Op)
    requires op.Throttle?
    ensures Tells(op, T.EffectiveCode(false, op.reverse, op.code))
  {
    T.CodeIsAsAsked(false, op.reverse, op.code);
  }

  lemma CodeIsLearnt(slots: S.Slots, p: S.Parsed, op: T.Op, c: bv8)
    requires op.Throttle? && Tells(op, c)
    requires p.slots == slots[S.Key(op.cab) := S.Get(slots, op.cab).(speedCode := c)]
    requires p.changed == (S.Get(slots, op.cab).speedCode != c)
    requires p.actions == if p.changed then [S.SetThrottle(op.cab, c & 0x7F, c & 0x80 != 0)] else []
    ensures Learns(slots, p, op)
  {
    assert S.Get(p.slots, op.cab).speedCode == c;
  }

  lemma {:induction false} AiredIsOnTrack(aired: seq<X.Airing>, i: nat)
    requires i < |aired| && aired[i].sent >= 1
    ensures aired[i].packet in X.OnTrack(aired)
    decreases |aired|
  {
    var m := |aired| - 1;
    if i < m {
      AiredIsOnTrack(aired[..m], i);
    } else {
      assert X.Copies(aired[m].packet, aired[m].sent)[0] == aired[m].packet;
    }
  }
}
