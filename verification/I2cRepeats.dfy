/** When a payload that has succeeded is sent again: the retry test of the I2C manager comes before the
    status of the deselection is set aside, so a failure to deselect the multiplexer starts the request anew. */
module I2cRepeats {
  import opened I2cRequests
  import opened I2cLimits

  predicate IsPayload(e: Event) {
    e.Began? && !OnMux(e.phase)
  }

  /** A payload of the request at the head has ended well. */
  predicate Paid(bus: seq<Event>) {
    bus != [] &&
    var n := |bus| - 1;
    match bus[n]
    case Began(_, _) => Paid(bus[..n])
    case Ended(_, status) => Paid(bus[..n]) || (status == OK && n > 0 && IsPayload(bus[n - 1]))
    case Left(_, _) => false
  }

  /** The requests whose payload began after it had already ended well. */
  function Repeats(bus: seq<Event>): seq<Rb> {
    if bus == [] then []
    else
      var n := |bus| - 1;
      Repeats(bus[..n]) + if IsPayload(bus[n]) && Paid(bus[..n]) then [bus[n].rb] else []
  }

  /** What a caller can tell before it queues a request. */
  predicate CanRepeat(rb: Rb, muxCount: nat) {
    rb.muxed && rb.device != 0 && muxCount != 1 && !rb.noRetry
  }

  ghost predicate RepeatsAllowed(bus: seq<Event>, muxCount: nat) {
    forall rb :: rb in Repeats(bus) ==> CanRepeat(rb, muxCount)
  }

  /** Between the transfers of a request. */
  ghost predicate Between(m: Manager) {
    && RepeatsAllowed(m.log.bus, m.muxCount)
    && (m.queue == [] ==> !m.current)
    && (Paid(m.log.bus) ==> m.queue != [] && CanRepeat(m.queue[0], m.muxCount))
  }

  predicate PhaseOk(rb: Rb, phase: Phase, muxCount: nat) {
    && (rb.muxed <==> phase != OFF)
    && (phase == PAYLOAD || phase == EPILOG ==> rb.device != 0)
    && (phase == EPILOG ==> muxCount != 1)
  }

  ghost predicate RepeatsOk(m: Manager) {
    && RepeatsAllowed(m.log.bus, m.muxCount)
    && (m.bus == FREE ==> !m.current)
    && (!m.current ==> !Paid(m.log.bus))
    && (m.current ==>
          && m.queue != [] && PhaseOk(m.queue[0], m.phase, m.muxCount)
          && m.log.bus != [] && m.log.bus[|m.log.bus| - 1] == Began(m.queue[0], m.phase)
          && (Paid(m.log.bus) ==> m.phase == EPILOG || CanRepeat(m.queue[0], m.muxCount)))
  }

  // ---------------------------------------------------------------- one event more

  lemma PaidMore(bus: seq<Event>, e: Event)
    ensures Paid(bus + [e]) ==
            match e
            case Began(_, _) => Paid(bus)
            case Ended(_, status) => Paid(bus) || (status == OK && bus != [] && IsPayload(bus[|bus| - 1]))
            case Left(_, _) => false
    ensures Repeats(bus + [e]) == Repeats(bus) + if IsPayload(e) && Paid(bus) then [e.rb] else []
  {
    assert (bus + [e])[..|bus|] == bus;
  }

  lemma AllowedMore(bus: seq<Event>, e: Event, muxCount: nat)
    requires RepeatsAllowed(bus, muxCount)
    requires IsPayload(e) && Paid(bus) ==> CanRepeat(e.rb, muxCount)
    ensures RepeatsAllowed(bus + [e], muxCount)
  {
    PaidMore(bus, e);
    hide Repeats, CanRepeat;
  }

  // ---------------------------------------------------------------- steps

  lemma StartRepeats(m: Manager)
    requires m.bus == FREE && Between(m)
    ensures var m' := StartTransaction(m);
            && RepeatsOk(m') && Repeats(m'.log.bus) == Repeats(m.log.bus) && Paid(m'.log.bus) == Paid(m.log.bus)
            && (Paid(m.log.bus) ==> m'.phase == PROLOG && m'.queue == m.queue)
  {
    if m.queue != [] {
      var e := Began(m.queue[0], if m.queue[0].muxed then PROLOG else OFF);
      PaidMore(m.log.bus, e);
      AllowedMore(m.log.bus, e, m.muxCount);
    }
    hide Repeats, Paid, RepeatsAllowed;
  }

  /** The request leaves, and the next one starts. */
  lemma LeaveRepeats(m: Manager, status: Status)
    requires m.queue != [] && RepeatsAllowed(m.log.bus, m.muxCount)
    ensures var m' := StartTransaction(Dequeue(m, status));
            RepeatsOk(m') && Repeats(m'.log.bus) == Repeats(m.log.bus) && !Paid(m'.log.bus)
  {
    var e := Left(m.queue[0].id, status);
    PaidMore(m.log.bus, e);
    AllowedMore(m.log.bus, e, m.muxCount);
    hide Repeats, Paid, RepeatsAllowed, StartTransaction;
    StartRepeats(Dequeue(m, status));
  }

  /** On to the next transfer of the same request. */
  lemma GoOnRepeats(m: Manager, phase: Phase)
    requires m.queue != [] && m.current && RepeatsAllowed(m.log.bus, m.muxCount) && PhaseOk(m.queue[0], phase, m.muxCount)
    requires Paid(m.log.bus) ==> phase == EPILOG || CanRepeat(m.queue[0], m.muxCount)
    ensures var m' := Begin(m, phase);
            && RepeatsOk(m') && Paid(m'.log.bus) == Paid(m.log.bus) && StartTransaction(m') == m'
            && Repeats(m'.log.bus) == Repeats(m.log.bus) + if !OnMux(phase) && Paid(m.log.bus) then [m.queue[0]] else []
  {
    var e := Began(m.queue[0], phase);
    PaidMore(m.log.bus, e);
    AllowedMore(m.log.bus, e, m.muxCount);
    hide Repeats, Paid, RepeatsAllowed, CanRepeat, PhaseOk;
  }

  /** A transfer of the request at the head, and how it ended. */
  ghost predicate JustEnded(m: Manager) {
    && m.queue != [] && m.current && PhaseOk(m.queue[0], m.phase, m.muxCount) && RepeatsAllowed(m.log.bus, m.muxCount)
    && (Paid(m.log.bus) ==>
          || m.phase == EPILOG || CanRepeat(m.queue[0], m.muxCount)
          || (m.completion == OK && !OnMux(m.phase)))
  }

  lemma FinishRepeats(m: Manager)
    requires JustEnded(m) && m.bus == COMPLETED
    ensures var m' := StartTransaction(Finish(m));
            && RepeatsOk(m') && (m.phase == EPILOG ==> !Paid(m'.log.bus))
            && Repeats(m'.log.bus) == Repeats(m.log.bus) +
                 if m.phase == PROLOG && m.completion == OK && m.queue[0].device != 0 && Paid(m.log.bus) then [m.queue[0]] else []
  {
    hide Repeats, Paid, RepeatsAllowed, CanRepeat, RepeatsOk, Begin, Dequeue, StartTransaction;
    var done := m.(overall := m.completion);
    match m.phase
    case PROLOG =>
      if m.completion == OK && m.queue[0].device != 0 {
        GoOnRepeats(done, PAYLOAD);
      } else {
        LeaveRepeats(done.(retry := 0), done.overall);
      }
    case PAYLOAD =>
      if m.muxCount == 1 {
        LeaveRepeats(done.(phase := OFF, retry := 0), done.overall);
      } else {
        GoOnRepeats(done, EPILOG);
      }
    case EPILOG => LeaveRepeats(m.(phase := OFF, retry := 0), m.overall);
    case OFF => LeaveRepeats(done.(retry := 0), m.completion);
  }

  lemma Busy(m: Manager)
    ensures m.bus != FREE ==> StartTransaction(m) == m
  {
  }

  /** The transfer under way is over, and well or not. */
  predicate Over(m: Manager) {
    m.bus == COMPLETED && m.current && m.queue != []
  }

  /** What a step adds to the repeated payloads, and when it starts a request anew: `ends` says whether
      it ends the transfer under way, and `status` how. */
  ghost predicate RepeatsBy(m: Manager, m': Manager, ends: bool, status: Status)
    requires ends ==> m.queue != []
  {
    && Repeats(m'.log.bus) == Repeats(m.log.bus) +
         (if Paid(m.log.bus) && m.phase == PROLOG && ends && status == OK then [m.queue[0]] else [])
    && (m.phase == EPILOG && Paid(m.log.bus) ==>
          (m'.phase == PROLOG && Paid(m'.log.bus) <==>
            ends && status != OK && (m.retry + 1) % 256 <= MAX_I2C_RETRIES && !m.queue[0].noRetry))
  }

  lemma EndRepeats(m: Manager)
    requires RepeatsOk(m) && Over(m)
    ensures var bus := m.log.bus + [Ended(m.queue[0].id, m.completion)];
            && RepeatsAllowed(bus, m.muxCount) && Repeats(bus) == Repeats(m.log.bus)
            && Paid(bus) == (Paid(m.log.bus) || (m.completion == OK && !OnMux(m.phase)))
  {
    var e := Ended(m.queue[0].id, m.completion);
    PaidMore(m.log.bus, e);
    AllowedMore(m.log.bus, e, m.muxCount);
    hide Repeats, Paid, RepeatsAllowed, CanRepeat;
  }

  lemma CompleteRepeats(m: Manager)
    requires RepeatsOk(m) && Over(m)
    ensures var m' := StartTransaction(Complete(m)); RepeatsOk(m') && RepeatsBy(m, m', true, m.completion)
  {
    EndRepeats(m);
    hide Repeats, Paid, RepeatsAllowed, Finish, StartTransaction;
    var r := CountRetry(m);
    var m1 := m.(retry := r, log := m.log.(bus := m.log.bus + [Ended(m.queue[0].id, m.completion)]));
    if Final(m, r) {
      FinishRepeats(m1);
    } else {
      StartRepeats(m1.(bus := FREE));
    }
  }

  lemma HandleKeepsRepeats(m: Manager, twi: Twi)
    requires RepeatsOk(m)
    ensures var m' := HandleByte(m, twi);
            RepeatsOk(m') && m'.log == m.log && m'.phase == m.phase && m'.queue == m.queue && m'.retry == m.retry
  {
    hide RepeatsAllowed, PhaseOk, CanRepeat, Paid;
  }

  /** The interrupt ends the transfer under way. */
  predicate Ends(m: Manager, op: Op) {
    op.Interrupt? && Over(HandleByte(m, op.twi))
  }

  function StatusAfter(m: Manager, op: Op): Status
    requires op.Interrupt?
  {
    HandleByte(m, op.twi).completion
  }

  ghost predicate RepeatStep(m: Manager, op: Op) {
    RepeatsBy(m, Step(m, op), Ends(m, op), if op.Interrupt? then StatusAfter(m, op) else OK)
  }

  lemma InterruptRepeats(m: Manager, twi: Twi)
    requires RepeatsOk(m)
    ensures RepeatsOk(Step(m, Interrupt(twi))) && RepeatStep(m, Interrupt(twi))
  {
    hide HandleByte, RepeatsOk, RepeatStep, Step;
    if Over(HandleByte(m, twi)) {
      InterruptEnds(m, twi);
    } else {
      InterruptPasses(m, twi);
    }
  }

  lemma InterruptEnds(m: Manager, twi: Twi)
    requires RepeatsOk(m) && Over(HandleByte(m, twi))
    ensures RepeatsOk(Step(m, Interrupt(twi))) && RepeatStep(m, Interrupt(twi))
  {
    var h := HandleByte(m, twi);
    HandleKeepsRepeats(m, twi);
    hide HandleByte, Repeats, Paid, RepeatsOk, Complete, StartTransaction, RepeatsBy;
    CompleteRepeats(h);
    SameBefore(h, m, StartTransaction(Complete(h)), true, h.completion);
  }

  lemma SameBefore(h: Manager, m: Manager, m': Manager, ends: bool, status: Status)
    requires h.log == m.log && h.phase == m.phase && h.queue == m.queue && h.retry == m.retry && (ends ==> m.queue != [])
    requires RepeatsBy(h, m', ends, status)
    ensures RepeatsBy(m, m', ends, status)
  {
    hide Repeats, Paid;
  }

  lemma InterruptPasses(m: Manager, twi: Twi)
    requires RepeatsOk(m) && !Over(HandleByte(m, twi))
    ensures RepeatsOk(Step(m, Interrupt(twi))) && RepeatStep(m, Interrupt(twi))
  {
    HandleKeepsRepeats(m, twi);
    hide HandleByte, Repeats, Paid, RepeatsOk, Complete, StartTransaction;
    NothingEnds(HandleByte(m, twi));
  }

  lemma NothingEnds(m: Manager)
    requires RepeatsOk(m) && !Over(m)
    ensures var m' := StartTransaction(Complete(m));
            && RepeatsOk(m') && Repeats(m'.log.bus) == Repeats(m.log.bus)
            && (Paid(m.log.bus) ==> m'.phase == m.phase)
  {
    hide Repeats, Paid, RepeatsAllowed;
    assert Complete(m) == m;
    hide StartTransaction, Complete;
    if m.bus == FREE {
      StartRepeats(m);
    } else {
      Busy(m);
    }
  }

  lemma StepRepeats(m: Manager, op: Op)
    requires RepeatsOk(m)
    ensures RepeatsOk(Step(m, op)) && RepeatStep(m, op)
  {
    match op
    case Enqueue(rb) =>
      var m1 := m.(queue := m.queue + [rb], status := m.status[rb.id := PENDING],
                   log := m.log.(accepted := m.log.accepted + [rb.id]));
      hide Repeats, Paid, RepeatsAllowed, StartTransaction;
      if m.bus == FREE {
        StartRepeats(m1);
      } else {
        Busy(m1);
      }
    case Interrupt(twi) =>
      InterruptRepeats(m, twi);
    case Overdue =>
      hide Repeats, Paid, RepeatsAllowed, StartTransaction, Dequeue;
      if m.bus == ACTIVE && m.queue != [] && m.current {
        LeaveRepeats(m.(transfer := m.transfer.(toSend := 0, toReceive := 0)), TIMEOUT);
      }
  }

  lemma {:induction false} RunRepeats(muxCount: nat, ops: seq<Op>)
    ensures RepeatsOk(Run(Initial(muxCount), ops)) && Run(Initial(muxCount), ops).muxCount == muxCount
  {
    if ops != [] {
      var n := |ops| - 1;
      RunRepeats(muxCount, ops[..n]);
      StepRepeats(Run(Initial(muxCount), ops[..n]), ops[n]);
      MuxCountStays(Run(Initial(muxCount), ops[..n]), ops[n]);
      hide Step, RepeatsOk, RepeatStep;
    }
  }

  lemma MuxCountStays(m: Manager, op: Op)
    ensures Step(m, op).muxCount == m.muxCount
  {
  }

  /** In every run, a payload that has ended well begins again at a step if and only if its channel has
      just been selected anew; and after the deselection the channel is selected anew if and only if
      the deselection failed, the counter allows another attempt and the request wants one. */
  lemma PayloadRepeatsExactly(muxCount: nat, ops: seq<Op>, op: Op)
    ensures RepeatStep(Run(Initial(muxCount), ops), op)
  {
    RunRepeats(muxCount, ops);
    StepRepeats(Run(Initial(muxCount), ops), op);
  }

  // ---------------------------------------------------------------- which requests

  /** In every run, only payloads of certain requests begin again after they have ended well. */
  lemma NoRepeatOtherwise(muxCount: nat, ops: seq<Op>)
    ensures forall rb :: rb in Repeats(Run(Initial(muxCount), ops).log.bus) ==> CanRepeat(rb, muxCount)
  {
    RunRepeats(muxCount, ops);
    hide Run, Repeats, Paid;
  }

  predicate At(m: Manager, rb: Rb, phase: Phase) {
    m.queue == [rb] && m.current && m.bus == ACTIVE && m.phase == phase && m.muxCount != 1 && m.completion == OK
  }

  /** The channel has been sent to the multiplexer. */
  predicate Chosen(m: Manager, rb: Rb) {
    At(m, rb, PROLOG) && m.transfer == Fresh(1, 0).(toSend := 0, tx := 1)
  }

  lemma Chooses(m: Manager, rb: Rb)
    requires At(m, rb, PROLOG) && m.transfer == Fresh(1, 0)
    ensures var m' := Step(m, Interrupt(SentAck)); Chosen(m', rb) && m'.retry == m.retry && m'.log == m.log
  {
    assert Step(m, Interrupt(SentAck)) == m.(transfer := m.transfer.(toSend := 0, tx := 1));
  }

  lemma Pays(m: Manager, rb: Rb)
    requires Chosen(m, rb) && rb.device != 0
    ensures At(Step(m, Interrupt(SentAck)), rb, PAYLOAD) && Step(m, Interrupt(SentAck)).retry == m.retry
    ensures Ends(m, Interrupt(SentAck)) && StatusAfter(m, Interrupt(SentAck)) == OK
  {
  }

  lemma EndsWell(m: Manager, rb: Rb)
    requires At(m, rb, PAYLOAD) && RepeatsOk(m)
    ensures var m' := Step(m, Interrupt(ReceivedNack));
            At(m', rb, EPILOG) && m'.retry == m.retry && Paid(m'.log.bus)
  {
    var h := HandleByte(m, ReceivedNack);
    var ended := m.log.bus + [Ended(rb.id, OK)];
    PaidMore(m.log.bus, Ended(rb.id, OK));
    PaidMore(ended, Began(rb, EPILOG));
    hide Paid, Repeats, RepeatsAllowed;
    assert h.bus == COMPLETED && h.log == m.log;
    assert Step(m, Interrupt(ReceivedNack)).log.bus == ended + [Began(rb, EPILOG)];
  }

  lemma StartsAnew(m: Manager, rb: Rb)
    requires At(m, rb, EPILOG) && m.retry == 0 && rb.muxed && !rb.noRetry
    ensures var m' := Step(m, Interrupt(Nack)); At(m', rb, PROLOG) && m'.transfer == Fresh(1, 0)
    ensures Ends(m, Interrupt(Nack)) && StatusAfter(m, Interrupt(Nack)) != OK
  {
  }

  lemma Begins(rb: Rb, muxCount: nat)
    requires CanRepeat(rb, muxCount) && !(rb.readOnly && rb.readLen == 0)
    ensures var m := Step(Initial(muxCount), Enqueue(rb)); At(m, rb, PROLOG) && m.transfer == Fresh(1, 0) && m.retry == 0
  {
  }

  /** The channel is chosen, the payload ends well, the multiplexer does not answer when it is to be
      deselected, and the channel is chosen again. */
  function TwiceSent(rb: Rb): seq<Op> {
    [Enqueue(rb), Interrupt(SentAck), Interrupt(SentAck)] + [Interrupt(ReceivedNack), Interrupt(Nack), Interrupt(SentAck)]
    + [Interrupt(SentAck)]
  }

  /** A failure to deselect the multiplexer after a payload that succeeded has the payload sent again. */
  lemma EpilogFailureRepeatsPayload(rb: Rb, muxCount: nat)
    requires CanRepeat(rb, muxCount) && !(rb.readOnly && rb.readLen == 0)
    ensures rb in Repeats(Run(Initial(muxCount), TwiceSent(rb)).log.bus)
  {
    var a := [Enqueue(rb), Interrupt(SentAck), Interrupt(SentAck)];
    var b := [Interrupt(ReceivedNack), Interrupt(Nack), Interrupt(SentAck)];
    var m0 := Initial(muxCount);
    RunOn(m0, a, b);
    RunOn(m0, a + b, [Interrupt(SentAck)]);
    RunOfThree(m0, a[0], a[1], a[2]);
    RunRepeats(muxCount, a);
    hide Run, Paid, Repeats, Initial, RepeatsOk;
    var m := Run(m0, a);
    RunOfThree(m, b[0], b[1], b[2]);
    var m1 := Step(m, b[0]);
    var m2 := Step(m1, b[1]);
    var m3 := Step(m2, b[2]);
    RunOfOne(m3, Interrupt(SentAck));
    hide Step, At, Chosen;
    Begins(rb, muxCount);
    Chooses(Step(m0, a[0]), rb);
    Pays(Step(Step(m0, a[0]), a[1]), rb);
    EndsWell(m, rb);
    PaidTwice(m, m1, m2, m3, rb);
  }

  lemma PaidTwice(m: Manager, m1: Manager, m2: Manager, m3: Manager, rb: Rb)
    requires RepeatsOk(m) && At(m1, rb, EPILOG) && m1.retry == 0 && Paid(m1.log.bus) && rb.muxed && !rb.noRetry && rb.device != 0
    requires m1 == Step(m, Interrupt(ReceivedNack)) && m2 == Step(m1, Interrupt(Nack)) && m3 == Step(m2, Interrupt(SentAck))
    ensures rb in Repeats(Step(m3, Interrupt(SentAck)).log.bus)
  {
    hide Step, Paid, Repeats, At, Chosen, RepeatsOk;
    StepRepeats(m, Interrupt(ReceivedNack));
    StepRepeats(m1, Interrupt(Nack));
    StepRepeats(m2, Interrupt(SentAck));
    StepRepeats(m3, Interrupt(SentAck));
    StartsAnew(m1, rb);
    AtIs(m1, rb, EPILOG);
    AtIs(m2, rb, PROLOG);
    Chooses(m2, rb);
    Pays(m3, rb);
    ChosenIs(m3, rb);
  }

  lemma AtIs(m: Manager, rb: Rb, phase: Phase)
    requires At(m, rb, phase)
    ensures m.phase == phase && m.queue == [rb]
  {
  }

  lemma ChosenIs(m: Manager, rb: Rb)
    requires Chosen(m, rb)
    ensures m.phase == PROLOG && m.queue == [rb]
  {
  }

  ghost predicate Repeated(rb: Rb, muxCount: nat, ops: seq<Op>) {
    rb in Repeats(Run(Initial(muxCount), ops).log.bus)
  }

  /** A request that queueRequest accepts can have a payload sent again that had succeeded if and only if
      it goes through a multiplexer to a device, there is not just one multiplexer, and it allows
      retries. */
  lemma RepeatsIfAndOnlyIf(rb: Rb, muxCount: nat)
    requires !(rb.readOnly && rb.readLen == 0)
    ensures (exists ops :: Repeated(rb, muxCount, ops)) <==> CanRepeat(rb, muxCount)
  {
    hide Run, Repeats, CanRepeat;
    if ops :| Repeated(rb, muxCount, ops) {
      NoRepeatOtherwise(muxCount, ops);
    }
    if CanRepeat(rb, muxCount) {
      EpilogFailureRepeatsPayload(rb, muxCount);
      assert Repeated(rb, muxCount, TwiceSent(rb));
    }
  }
}
