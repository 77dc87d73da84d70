/** When the transmitter takes its next packet.  Interrupts are the clock of a run: between two
    promotions the packet being sent cannot change, and the reminder window tells that a packet
    handed over now is the very next one on the track. */
module DccTimeline {
  import opened DccFraming
  import opened DccTransmitter

  /** Interrupts among the events. */
  function Ticks(es: seq<Event>): nat {
    if es == [] then 0 else Ticks(es[..|es| - 1]) + if es[|es| - 1] == Interrupt then 1 else 0
  }

  /** The bytes of the frame; at power-up a single one is sent before the first preamble. */
  function FrameBytes(tx: Tx): nat {
    if tx.transmitLength == 0 then 1 else tx.transmitLength
  }

  /** Interrupts until the next packet is chosen, counting the one that chooses it. */
  function Until(tx: Tx): (n: nat)
    requires TxOk(tx)
    ensures n > 0
  {
    if tx.remainingPreambles > 1 then tx.remainingPreambles - 1
    else tx.remainingPreambles + 9 * (FrameBytes(tx) - tx.bytesSent) - tx.bitsSent + RequiredPreambles(tx.isMainTrack) - 1
  }

  predicate SameFrame(a: Tx, b: Tx) {
    b.transmitPacket == a.transmitPacket && b.transmitLength == a.transmitLength && b.isMainTrack == a.isMainTrack
  }

  lemma TickCounts(tx: Tx)
    requires TxOk(tx)
    ensures Until(tx) > 1 ==> SameFrame(tx, Interrupt2(tx)) && Until(Interrupt2(tx)) == Until(tx) - 1
    ensures Until(tx) == 1 <==> tx.remainingPreambles == 2
    ensures Until(tx) == 1 ==> Interrupt2(tx).remainingPreambles == 1
  {
    hide BitAt;
  }

  lemma OthersWait(w: World, e: Event)
    requires WorldOk(w) && e != Interrupt
    ensures SameFrame(w.tx, Step(w, e).tx) && Until(Step(w, e).tx) == Until(w.tx)
  {
    hide LogInterrupt, Interrupt2, LogClear;
  }

  /** Whatever the main thread does and however it is interleaved, the packet being sent and its length
      are unchanged until as many interrupts have come as are missing to the next promotion. */
  lemma {:induction false} FrameIsStable(w: World, es: seq<Event>)
    requires WorldOk(w) && Ticks(es) < Until(w.tx)
    ensures SameFrame(w.tx, Run(w, es).tx) && Until(Run(w, es).tx) == Until(w.tx) - Ticks(es)
    decreases |es|
  {
    if es != [] {
      var n := |es| - 1;
      FrameIsStable(w, es[..n]);
      var w1 := Run(w, es[..n]);
      hide Interrupt2, LogInterrupt, LogClear, MainStep, Until;
      if es[n] == Interrupt {
        TickCounts(w1.tx);
      } else {
        OthersWait(w1, es[n]);
      }
    }
  }

  /** From its promotion to its last bit and through the preamble that follows, a packet stays as it was
      promoted; the next promotion comes exactly one frame of bits later. */
  lemma BytesInFlightAreStable(w: World, es: seq<Event>)
    requires WorldOk(w) && w.tx.remainingPreambles == 1 && w.tx.transmitLength > 0
    ensures Until(w.tx) == 9 * w.tx.transmitLength + RequiredPreambles(w.tx.isMainTrack)
    ensures Ticks(es) < Until(w.tx) ==> SameFrame(w.tx, Run(w, es).tx)
    ensures Ticks(es) == Until(w.tx) - 1 ==> Step(Run(w, es), Interrupt).tx.remainingPreambles == 1
    ensures Ticks(es) < Until(w.tx) - 1 ==> Step(Run(w, es), Interrupt).tx.remainingPreambles != 1
  {
    if Ticks(es) < Until(w.tx) {
      FrameIsStable(w, es);
      TickCounts(Run(w, es).tx);
      PromotesAt(Run(w, es));
      hide Run, Ticks;
    }
  }

  lemma PromotesAt(w: World)
    requires WorldOk(w)
    ensures Step(w, Interrupt).tx.remainingPreambles == 1 <==> w.tx.remainingPreambles == 2
  {
    hide BitAt, LogInterrupt;
  }

  // ---------------------------------------------------------------- the reminder window

  /** The window is open only in the last bits of a preamble, with nothing left to repeat. */
  predicate WindowOk(tx: Tx) {
    tx.reminderWindowOpen ==> 2 <= tx.remainingPreambles <= 11 && tx.transmitRepeats == 0
  }

  lemma StepKeepsWindow(w: World, e: Event)
    requires WorldOk(w) && WindowOk(w.tx)
    ensures WindowOk(Step(w, e).tx)
    ensures e == Interrupt ==>
              var tx := Step(w, e).tx;
              (tx.reminderWindowOpen <==> 2 <= tx.remainingPreambles <= 11 && tx.transmitRepeats == 0)
  {
    hide BitAt, LogInterrupt, LogClear;
  }

  /** In every run the window is open only while between one and ten more preamble bits are to come before
      the next packet is chosen and nothing is to be repeated; and just after an interrupt it is open
      if that is so. */
  lemma {:induction false} WindowMeans(isMainTrack: bool, es: seq<Event>)
    ensures var tx := Run(Start(isMainTrack), es).tx;
            && WindowOk(tx)
            && (es != [] && es[|es| - 1] == Interrupt ==>
                  (tx.reminderWindowOpen <==> 2 <= tx.remainingPreambles <= 11 && tx.transmitRepeats == 0))
    decreases |es|
  {
    if es != [] {
      var n := |es| - 1;
      WindowMeans(isMainTrack, es[..n]);
      StepKeepsWindow(Run(Start(isMainTrack), es[..n]), es[n]);
      hide Step;
    }
  }

  /** Nothing is to be repeated, and nothing goes out, before the next packet is chosen. */
  ghost predicate Waits(w: World, w': World) {
    && w'.tx.transmitRepeats == 0 && w'.tx.remainingPreambles >= 2
    && OnTrack(w'.log.aired) == OnTrack(w.log.aired)
  }

  lemma WaitsOn(w: World, w1: World, e: Event)
    requires Inv(w1) && Waits(w, w1) && (e == Interrupt ==> w1.tx.remainingPreambles > 2)
    ensures Waits(w, Step(w1, e))
    ensures Step(w1, e).tx.remainingPreambles == w1.tx.remainingPreambles - if e == Interrupt then 1 else 0
  {
    if e == ClearRepeats {
      AiredByClear(w1.tx, w1.log);
    }
    hide OnTrack, BitsOk, AiredOk, MailOk, Conserved, BitAt, LogClear;
  }

  lemma {:induction false} WaitsFor(w: World, es: seq<Event>)
    requires Inv(w) && w.tx.transmitRepeats == 0 && Ticks(es) < w.tx.remainingPreambles - 1
    ensures Waits(w, Run(w, es)) && Run(w, es).tx.remainingPreambles == w.tx.remainingPreambles - Ticks(es)
    decreases |es|
  {
    if es != [] {
      var n := |es| - 1;
      WaitsFor(w, es[..n]);
      RunKeepsInv(w, es[..n]);
      WaitsOn(w, Run(w, es[..n]), es[n]);
      hide Step, Inv, Waits;
    }
  }

  /** In every run, from a moment when the window is open: nothing more goes out before the interrupt
      that chooses the next packet, at most ten interrupts away, and a packet that is in the mailbox by
      then is the next one on the track.  No idle or reset packet comes in between. */
  lemma WindowCatches(isMainTrack: bool, before: seq<Event>, es: seq<Event>)
    requires var w := Run(Start(isMainTrack), before);
             w.tx.reminderWindowOpen && Ticks(es) == w.tx.remainingPreambles - 2
    ensures var w := Run(Start(isMainTrack), before);
            var w' := Run(w, es);
            && Ticks(es) < 10 && OnTrack(w'.log.aired) == OnTrack(w.log.aired)
            && OnTrack(Step(w', Interrupt).log.aired) ==
               OnTrack(w.log.aired) + [if w'.tx.packetPending then w'.tx.pendingPacket[..w'.tx.pendingLength] else Filler(isMainTrack)]
  {
    RunInv(isMainTrack, before);
    WindowMeans(isMainTrack, before);
    var w := Run(Start(isMainTrack), before);
    WaitsFor(w, es);
    RunKeepsInv(w, es);
    TrackIsFixed(isMainTrack, before);
    ChoosesNext(Run(w, es));
    TrackStays(w, es);
    hide Run, Inv, Ticks, OnTrack, Step;
  }

  lemma ChoosesNext(w: World)
    requires Inv(w) && w.tx.remainingPreambles == 2 && w.tx.transmitRepeats == 0
    ensures OnTrack(Step(w, Interrupt).log.aired) ==
            OnTrack(w.log.aired) + [if w.tx.packetPending then w.tx.pendingPacket[..w.tx.pendingLength] else Filler(w.tx.isMainTrack)]
  {
    hide OnTrack, BitsOk, AiredOk, MailOk, Conserved, BitAt;
    if w.tx.packetPending {
      AirPending(w.tx, w.main, w.log.aired);
    } else {
      AirFiller(w.tx, w.log.aired);
    }
  }

  // ---------------------------------------------------------------- counting resets

  /** A filler adds one; a packet chosen, or the end of a hand-over, starts again. */
  function CountAfter(w: World, e: Event, count: nat): nat
    requires WorldOk(w)
  {
    var a, b := w.log.aired, Step(w, e).log.aired;
    if e == Thread && w.main == Tidying then 0
    else if |b| > |a| then (if b[|b| - 1].job == [] then count + 1 else 0)
    else count
  }

  /** Idle or reset packets chosen since a packet was last chosen, or its hand-over last completed. */
  function FillersSince(isMainTrack: bool, es: seq<Event>): nat
    decreases |es|
  {
    if es == [] then 0
    else var n := |es| - 1; CountAfter(Run(Start(isMainTrack), es[..n]), es[n], FillersSince(isMainTrack, es[..n]))
  }

  function AtMost250(count: nat): nat {
    if count < 250 then count else 250
  }

  lemma CountsOn(w: World, e: Event, count: nat)
    requires Inv(w) && w.tx.sentResets == AtMost250(count)
    ensures Step(w, e).tx.sentResets == AtMost250(CountAfter(w, e, count))
  {
    hide BitsOk, MailOk, Conserved, BitAt, AiringOk;
  }

  /** In every run the reset count is the number of fillers since the last packet, up to 250. */
  lemma {:induction false} ResetsAreFillers(isMainTrack: bool, es: seq<Event>)
    ensures Run(Start(isMainTrack), es).tx.sentResets == AtMost250(FillersSince(isMainTrack, es))
    decreases |es|
  {
    hide Step, Inv, CountAfter;
    if es != [] {
      hide AtMost250, Start;
      var n := |es| - 1;
      ResetsAreFillers(isMainTrack, es[..n]);
      RunInv(isMainTrack, es[..n]);
      CountsOn(Run(Start(isMainTrack), es[..n]), es[n], FillersSince(isMainTrack, es[..n]));
    }
  }

  // ---------------------------------------------------------------- progress

  function Threads(es: seq<Event>): nat {
    if es == [] then 0 else Threads(es[..|es| - 1]) + if es[|es| - 1] == Thread then 1 else 0
  }

  ghost predicate NoRequests(es: seq<Event>) {
    forall i :: 0 <= i < |es| ==> !es[i].Request?
  }

  /** Stores left to the main thread, once the mailbox is empty. */
  function StoresLeft(m: Main): nat {
    match m
    case Idle => 0
    case Waiting(job) => |job.payload| + 6
    case Copying(job, i, _) => if i <= |job.payload| then |job.payload| - i + 5 else 5
    case Sizing(_) => 4
    case Repeating(_) => 3
    case Publishing(_) => 2
    case Tidying => 1
  }

  predicate Free(w: World) {
    w.main.Waiting? ==> !w.tx.packetPending
  }

  lemma StoresOn(w: World, e: Event)
    requires WorldOk(w) && Free(w) && !e.Request?
    ensures var w' := Step(w, e);
            && Free(w')
            && StoresLeft(w'.main) == if e == Thread && StoresLeft(w.main) > 0 then StoresLeft(w.main) - 1 else StoresLeft(w.main)
  {
    hide LogInterrupt, LogClear, BitAt, XorAll;
  }

  /** The main thread is never held up once the mailbox is empty: it is done after as many steps of its own
      as there are bytes, and six more, however many interrupts come in between. */
  lemma {:induction false} HandOverCompletes(w: World, es: seq<Event>)
    requires WorldOk(w) && Free(w) && NoRequests(es)
    ensures var w' := Run(w, es);
            && Free(w')
            && StoresLeft(w'.main) == (if Threads(es) < StoresLeft(w.main) then StoresLeft(w.main) - Threads(es) else 0)
            && (w'.main == Idle <==> Threads(es) >= StoresLeft(w.main))
    decreases |es|
  {
    if es != [] {
      var n := |es| - 1;
      HandOverCompletes(w, es[..n]);
      StoresOn(Run(w, es[..n]), es[n]);
      hide Step;
    }
  }

  /** Bits of a whole frame of the packet being sent. */
  function FrameBits(tx: Tx): nat {
    9 * FrameBytes(tx) + RequiredPreambles(tx.isMainTrack)
  }

  /** Interrupts until the packet in the mailbox is chosen. */
  function Delay(tx: Tx): nat
    requires TxOk(tx)
  {
    Until(tx) + tx.transmitRepeats * FrameBits(tx)
  }

  lemma DelaySame(tx: Tx, tx': Tx)
    requires TxOk(tx) && TxOk(tx') && FrameBits(tx') == FrameBits(tx)
    ensures Until(tx') == Until(tx) && (tx'.transmitRepeats == tx.transmitRepeats || tx'.transmitRepeats == 0) ==> Delay(tx') <= Delay(tx)
    ensures Until(tx') == Until(tx) - 1 && tx'.transmitRepeats == tx.transmitRepeats ==> Delay(tx') == Delay(tx) - 1
    ensures Until(tx) == 1 && Until(tx') == FrameBits(tx') && tx'.transmitRepeats == tx.transmitRepeats - 1 ==> Delay(tx') == Delay(tx) - 1
    ensures Delay(tx) >= Until(tx) && (Delay(tx) == 1 <==> Until(tx) == 1 && tx.transmitRepeats == 0)
  {
    assert FrameBits(tx) > 0;
    hide Until, FrameBits;
    var f := FrameBits(tx);
    if tx.transmitRepeats > 0 {
      assert tx.transmitRepeats * f == (tx.transmitRepeats - 1) * f + f;
    }
  }

  /** An interrupt brings it nearer by one, and the last one chooses it. */
  lemma DelayTicks(w: World)
    requires Inv(w) && w.tx.packetPending
    ensures var w' := Step(w, Interrupt);
            if Delay(w.tx) == 1 then |JobsOf(w'.log.aired)| == |JobsOf(w.log.aired)| + 1
            else w'.tx.packetPending && Delay(w'.tx) == Delay(w.tx) - 1 && JobsOf(w'.log.aired) == JobsOf(w.log.aired)
  {
    var w' := Step(w, Interrupt);
    TickCounts(w.tx);
    DelaySame(w.tx, w.tx);
    if w.tx.remainingPreambles == 2 {
      PromotionDelay(w);
      hide JobsOf, Inv, Until, Delay, Interrupt2, LogInterrupt;
      if w.tx.transmitRepeats > 0 {
        DelaySame(w.tx, w'.tx);
      }
    } else {
      NoPromotion(w);
      hide JobsOf, Inv, Until, Delay, Interrupt2, LogInterrupt;
      DelaySame(w.tx, w'.tx);
    }
  }

  lemma NoPromotion(w: World)
    requires Inv(w) && w.tx.packetPending && w.tx.remainingPreambles != 2
    ensures var w' := Step(w, Interrupt);
            w'.tx.packetPending && w'.log.aired == w.log.aired && w'.tx.transmitRepeats == w.tx.transmitRepeats && FrameBits(w'.tx) == FrameBits(w.tx)
  {
    hide Inv, BitAt, RequiredPreambles;
  }

  lemma PromotionDelay(w: World)
    requires Inv(w) && w.tx.packetPending && w.tx.remainingPreambles == 2
    ensures var w' := Step(w, Interrupt);
            if w.tx.transmitRepeats == 0 then |JobsOf(w'.log.aired)| == |JobsOf(w.log.aired)| + 1
            else && w'.tx.packetPending && JobsOf(w'.log.aired) == JobsOf(w.log.aired)
                 && w'.tx.transmitRepeats == w.tx.transmitRepeats - 1 && SameFrame(w.tx, w'.tx) && Until(w'.tx) == FrameBits(w'.tx)
  {
    hide JobsOf, OnTrack, BitsOk, Conserved, MailOk, AiredOk, BitAt;
    if w.tx.transmitRepeats > 0 {
      AirAgain(w.tx, w.log.aired);
    } else {
      AirPending(w.tx, w.main, w.log.aired);
    }
  }

  /** Other events do not hold it up. */
  lemma DelayWaits(w: World, e: Event)
    requires Inv(w) && e != Interrupt && w.tx.packetPending
    ensures var w' := Step(w, e);
            w'.tx.packetPending && Delay(w'.tx) <= Delay(w.tx) && JobsOf(w'.log.aired) == JobsOf(w.log.aired)
  {
    OthersWait(w, e);
    OthersLeave(w, e);
    hide JobsOf, Inv, Until, Delay, FrameBits, Step;
    DelaySame(w.tx, Step(w, e).tx);
  }

  lemma OthersLeave(w: World, e: Event)
    requires Inv(w) && e != Interrupt && w.tx.packetPending
    ensures var w' := Step(w, e);
            && w'.tx.packetPending && JobsOf(w'.log.aired) == JobsOf(w.log.aired) && FrameBits(w'.tx) == FrameBits(w.tx)
            && (w'.tx.transmitRepeats == w.tx.transmitRepeats || w'.tx.transmitRepeats == 0)
  {
    if e == ClearRepeats {
      AiredByClear(w.tx, w.log);
    }
    hide JobsOf, OnTrack, BitsOk, AiredOk, Conserved, LogClear, XorAll, RequiredPreambles;
  }

  lemma JobsOnlyGrow(w: World, e: Event)
    requires Inv(w)
    ensures |JobsOf(w.log.aired)| <= |JobsOf(Step(w, e).log.aired)|
  {
    hide JobsOf, AiredOk, BitsOk, MailOk, Air, BitAt, XorAll;
    if e == Interrupt && w.tx.remainingPreambles == 2 {
      AiredByPromote(w.tx, w.main, w.log.aired);
      InFlightByPromote(w.tx, w.main);
    } else if e == ClearRepeats {
      AiredByClear(w.tx, w.log);
    }
  }

  /** A packet in the mailbox is chosen after a bounded number of interrupts, whatever the main thread does:
      the rest of the frame being sent, and a frame for each repeat that is left of it. */
  lemma {:induction false} MailboxIsEmptied(w: World, es: seq<Event>)
    requires Inv(w) && w.tx.packetPending
    ensures var w', n, m := Run(w, es), |JobsOf(w.log.aired)|, |JobsOf(Run(w, es).log.aired)|;
            && n <= m
            && (m == n ==> w'.tx.packetPending && Delay(w'.tx) + Ticks(es) <= Delay(w.tx))
            && (Ticks(es) >= Delay(w.tx) ==> m > n)
    decreases |es|
  {
    hide JobsOf, Delay;
    if es != [] {
      var k := |es| - 1;
      MailboxIsEmptied(w, es[..k]);
      RunKeepsInv(w, es[..k]);
      var w1 := Run(w, es[..k]);
      JobsOnlyGrow(w1, es[k]);
      if |JobsOf(w1.log.aired)| == |JobsOf(w.log.aired)| {
        if es[k] == Interrupt {
          DelayTicks(w1);
        } else {
          DelayWaits(w1, es[k]);
        }
      }
      hide Step;
    }
    hide Inv;
    RunKeepsInv(w, es);
    DelayIsPositive(Run(w, es).tx);
  }

  lemma DelayIsPositive(tx: Tx)
    requires TxOk(tx)
    ensures Delay(tx) >= 1
  {
  }
}
