/** Where the I2C manager goes beyond what it is meant to do: a retry counter that wraps, and a write
    that is reported as a success though arbitration lost some of it. */
module I2cLimits {
  import opened I2cRequests

  lemma {:induction false} RunOn(m: Manager, a: seq<Op>, b: seq<Op>)
    ensures Run(m, a + b) == Run(Run(m, a), b)
    decreases |b|
  {
    hide Step;
    if b == [] {
      assert a + b == a;
    } else {
      var n := |b| - 1;
      assert (a + b)[..|a| + n] == a + b[..n];
      RunOn(m, a, b[..n]);
    }
  }

  /** A request behind a multiplexer, and one that is not. */
  const FAR := Rb(1, true, 5, 0, 0, false, false)
  const NEAR := Rb(2, false, 7, 0, 0, false, false)

  predicate Idle(m: Manager, retry: nat) {
    m.queue == [] && !m.current && m.bus == FREE && m.starts == 0 && m.retry == retry && m.muxCount == 2
  }

  /** The far request is selecting its channel. */
  predicate Selecting(m: Manager, retry: nat, starts: nat, first: nat) {
    && m.queue == [FAR] && m.current && m.bus == ACTIVE && m.phase == PROLOG && m.retry == retry && m.muxCount == 2
    && m.transfer == Fresh(1, 0) && m.completion == OK && m.starts == starts && m.first == first
  }

  predicate Deselecting(m: Manager, retry: nat, starts: nat, first: nat) {
    && m.queue == [FAR] && m.current && m.bus == ACTIVE && m.phase == EPILOG && m.retry == retry && m.muxCount == 2
    && m.starts == starts && m.first == first
  }

  const ATTEMPT: seq<Op> := [Interrupt(SentAck), Interrupt(SentAck), Interrupt(Nack)]

  lemma RunOfThree(m: Manager, a: Op, b: Op, c: Op)
    ensures Run(m, [a, b, c]) == Step(Step(Step(m, a), b), c)
  {
    hide Step;
    assert [a, b, c][..2] == [a, b] && [a, b][..1] == [a] && [a][..0] == [];
    assert Run(m, [a]) == Step(m, a);
    assert Run(m, [a, b]) == Step(Step(m, a), b);
  }

  lemma RunOfOne(m: Manager, a: Op)
    ensures Run(m, [a]) == Step(m, a)
  {
    hide Step;
    assert [a][..0] == [];
  }

  /** The far request is being sent. */
  predicate Paying(m: Manager, retry: nat, starts: nat, first: nat) {
    && m.queue == [FAR] && m.current && m.bus == ACTIVE && m.phase == PAYLOAD && m.retry == retry && m.muxCount == 2
    && m.starts == starts && m.first == first
  }

  lemma ChannelSelected(m: Manager, retry: nat, starts: nat, first: nat)
    requires Selecting(m, retry, starts, first)
    ensures Paying(Step(Step(m, Interrupt(SentAck)), Interrupt(SentAck)), retry, starts, first)
  {
    var m1 := Step(m, Interrupt(SentAck));
    assert m1 == m.(transfer := m.transfer.(toSend := 0, tx := 1));
  }

  lemma NotAnswered(m: Manager, retry: nat, starts: nat, first: nat)
    requires Paying(m, retry, starts, first) && retry < 255 && starts > 0
    ensures var m' := Step(m, Interrupt(Nack));
            if retry + 1 <= MAX_I2C_RETRIES then Selecting(m', retry + 1, starts + 1, first) else Deselecting(m', retry + 1, starts, first)
  {
  }

  /** The channel is selected and the device does not answer. */
  lemma Attempted(m: Manager, retry: nat, starts: nat, first: nat)
    requires Selecting(m, retry, starts, first) && retry < 255 && starts > 0
    ensures var m' := Run(m, ATTEMPT);
            if retry + 1 <= MAX_I2C_RETRIES then Selecting(m', retry + 1, starts + 1, first) else Deselecting(m', retry + 1, starts, first)
  {
    hide Run, Step, Selecting, Paying, Deselecting;
    RunOfThree(m, Interrupt(SentAck), Interrupt(SentAck), Interrupt(Nack));
    ChannelSelected(m, retry, starts, first);
    NotAnswered(Step(Step(m, Interrupt(SentAck)), Interrupt(SentAck)), retry, starts, first);
  }

  lemma GivenUp(m: Manager, retry: nat, starts: nat, first: nat)
    requires Deselecting(m, retry, starts, first)
    ensures Idle(Run(m, [Overdue]), retry)
  {
    RunOfOne(m, Overdue);
    hide Run;
  }

  lemma Asked(m: Manager, retry: nat)
    requires Idle(m, retry)
    ensures Selecting(Run(m, [Enqueue(FAR)]), retry, 1, retry)
  {
    RunOfOne(m, Enqueue(FAR));
    hide Run;
  }

  /** A request that fails for good and whose deselection then times out leaves the counter one higher. */
  lemma Climbs(m: Manager, retry: nat)
    requires Idle(m, retry) && 2 <= retry < 255
    ensures Idle(Run(m, [Enqueue(FAR)] + ATTEMPT + [Overdue]), retry + 1)
  {
    hide Run, Idle, Selecting, Deselecting;
    var e, o := [Enqueue(FAR)], [Overdue];
    RunOn(m, e, ATTEMPT);
    RunOn(m, e + ATTEMPT, o);
    Asked(m, retry);
    Attempted(Run(m, e), retry, 1, retry);
    GivenUp(Run(m, e + ATTEMPT), retry + 1, 1, retry);
  }

  lemma ClimbsToThree()
    returns (ops: seq<Op>)
    ensures Idle(Run(Initial(2), ops), 3)
  {
    var m0 := Initial(2);
    assert Idle(m0, 0);
    hide Run, Idle, Selecting, Deselecting;
    var e := [Enqueue(FAR)];
    Asked(m0, 0);
    RunOn(m0, e, ATTEMPT);
    Attempted(Run(m0, e), 0, 1, 0);
    RunOn(m0, e + ATTEMPT, ATTEMPT);
    Attempted(Run(m0, e + ATTEMPT), 1, 2, 0);
    RunOn(m0, e + ATTEMPT + ATTEMPT, ATTEMPT);
    Attempted(Run(m0, e + ATTEMPT + ATTEMPT), 2, 3, 0);
    ops := e + ATTEMPT + ATTEMPT + ATTEMPT;
    RunOn(m0, ops, [Overdue]);
    GivenUp(Run(m0, ops), 3, 3, 0);
    ops := ops + [Overdue];
  }

  /** So any value of the retry counter can be left behind. */
  lemma {:induction false} CounterIsLeft(retry: nat) returns (ops: seq<Op>)
    requires 3 <= retry <= 255
    ensures Idle(Run(Initial(2), ops), retry)
    decreases retry
  {
    hide Run, Idle;
    if retry == 3 {
      ops := ClimbsToThree();
    } else {
      ops := CounterIsLeft(retry - 1);
      var more := [Enqueue(FAR)] + ATTEMPT + [Overdue];
      Climbs(Run(Initial(2), ops), retry - 1);
      RunOn(Initial(2), ops, more);
      ops := ops + more;
    }
  }

  predicate Serving(m: Manager, retry: nat, starts: nat) {
    && m.queue == [NEAR] && m.current && m.bus == ACTIVE && m.retry == retry && m.starts == starts && m.phase == OFF
    && m.first == 255
  }

  lemma Refused(m: Manager, retry: nat, starts: nat)
    requires Serving(m, retry, starts) && (retry == 255 || retry < MAX_I2C_RETRIES) && starts > 0
    ensures Serving(Step(m, Interrupt(Nack)), (retry + 1) % 256, starts + 1)
  {
  }

  lemma NearStarts(m: Manager)
    requires Idle(m, 255)
    ensures Serving(Step(m, Enqueue(NEAR)), 255, 1)
  {
  }

  /** From 255 the counter wraps as soon as the device does not answer. */
  lemma FourTimesFrom255(m: Manager)
    requires Idle(m, 255)
    ensures var m' := Run(Run(m, [Enqueue(NEAR)]), [Interrupt(Nack), Interrupt(Nack), Interrupt(Nack)]);
            m'.starts == 4 && m'.first == 255
  {
    hide Run, Step, Idle;
    RunOfOne(m, Enqueue(NEAR));
    var m1 := Run(m, [Enqueue(NEAR)]);
    RunOfThree(m1, Interrupt(Nack), Interrupt(Nack), Interrupt(Nack));
    NearStarts(m);
    Refused(m1, 255, 1);
    Refused(Step(m1, Interrupt(Nack)), 0, 2);
    Refused(Step(Step(m1, Interrupt(Nack)), Interrupt(Nack)), 1, 3);
  }

  lemma DeselectionFails(m: Manager)
    requires Deselecting(m, 255, 1, 254)
    ensures Selecting(Run(m, [Interrupt(Nack)]), 0, 2, 254)
  {
    RunOfOne(m, Interrupt(Nack));
    hide Run;
  }

  /** From 254 it wraps when the multiplexer does not answer after the device has not. */
  lemma FourTimesFrom254(m: Manager)
    requires Idle(m, 254)
    ensures var m' := Run(Run(Run(Run(Run(m, [Enqueue(FAR)]), ATTEMPT), [Interrupt(Nack)]), ATTEMPT), ATTEMPT);
            m'.starts == 4 && m'.first == 254
  {
    Asked(m, 254);
    var m1 := Run(m, [Enqueue(FAR)]);
    hide Run, Deselecting, Idle;
    Attempted(m1, 254, 1, 254);
    DeselectionFails(Run(m1, ATTEMPT));
    var m2 := Run(Run(m1, ATTEMPT), [Interrupt(Nack)]);
    Attempted(m2, 0, 2, 254);
    Attempted(Run(m2, ATTEMPT), 1, 3, 254);
  }

  lemma StartsFrom255() returns (ops: seq<Op>)
    ensures var m := Run(Initial(2), ops); m.starts == MAX_I2C_RETRIES + 2 && m.first == 255
  {
    var before := CounterIsLeft(255);
    var a, b := [Enqueue(NEAR)], [Interrupt(Nack), Interrupt(Nack), Interrupt(Nack)];
    hide Run, Idle;
    FourTimesFrom255(Run(Initial(2), before));
    RunOn(Initial(2), before, a);
    RunOn(Initial(2), before + a, b);
    ops := before + a + b;
  }

  lemma StartsFrom254() returns (ops: seq<Op>)
    ensures var m := Run(Initial(2), ops); m.starts == MAX_I2C_RETRIES + 2 && m.first == 254
  {
    var before := CounterIsLeft(254);
    var a, b := [Enqueue(FAR)], [Interrupt(Nack)];
    hide Run, Idle;
    FourTimesFrom254(Run(Initial(2), before));
    RunOn(Initial(2), before, a);
    RunOn(Initial(2), before + a, ATTEMPT);
    RunOn(Initial(2), before + a + ATTEMPT, b);
    RunOn(Initial(2), before + a + ATTEMPT + b, ATTEMPT);
    RunOn(Initial(2), before + a + ATTEMPT + b + ATTEMPT, ATTEMPT);
    ops := before + a + ATTEMPT + b + ATTEMPT + ATTEMPT;
  }

  ghost predicate Overstarted(muxCount: nat, ops: seq<Op>, first: nat) {
    var m := Run(Initial(muxCount), ops);
    m.starts > MAX_I2C_RETRIES + 1 && m.first == first
  }

  /** A request can be started more than MAX_I2C_RETRIES + 1 times if and only if it finds the retry
      counter at 254 or 255: it can then be started once more, because the counter wraps. */
  lemma RetryCounterWraps(first: nat)
    ensures (exists muxCount, ops :: Overstarted(muxCount, ops, first)) <==> first == 254 || first == 255
  {
    hide Run;
    forall muxCount, ops | Overstarted(muxCount, ops, first) ensures first == 254 || first == 255 {
      StartsAreBounded(muxCount, ops);
      RunKeepsRetries(muxCount, ops);
    }
    if first == 255 {
      var ops := StartsFrom255();
      assert Overstarted(2, ops, first);
    } else if first == 254 {
      var ops := StartsFrom254();
      assert Overstarted(2, ops, first);
    }
  }

  // ---------------------------------------------------------------- lost arbitration

  function EngineRun(e: Engine, twis: seq<Twi>): Engine {
    if twis == [] then e else EngineStep(EngineRun(e, twis[..|twis| - 1]), twis[|twis| - 1])
  }

  /** Bytes acknowledged, and bytes received, as the bus reports them. */
  function Acknowledged(twis: seq<Twi>): nat {
    if twis == [] then 0 else Acknowledged(twis[..|twis| - 1]) + if twis[|twis| - 1] == SentAck then 1 else 0
  }

  function ReceivedIn(twis: seq<Twi>): nat {
    if twis == [] then 0
    else ReceivedIn(twis[..|twis| - 1]) + if twis[|twis| - 1] in {ReceivedAck, ReceivedNack} then 1 else 0
  }

  /** While a transfer of `n` bytes out and `r` bytes in is under way, each acknowledgement sends one byte and
      each byte received is taken, as long as there is one to send or room for one, whatever else happens. */
  lemma {:induction false} EveryByteCounts(completion: Status, n: nat, r: nat, twis: seq<Twi>)
    ensures var t := EngineRun(Engine(ACTIVE, completion, Fresh(n, r)), twis).transfer;
            && t.tx + t.lostTx == (if Acknowledged(twis) < n then Acknowledged(twis) else n) == n - t.toSend
            && t.rx + t.lostRx == (if ReceivedIn(twis) < r then ReceivedIn(twis) else r) == r - t.toReceive
  {
    if twis != [] {
      EveryByteCounts(completion, n, r, twis[..|twis| - 1]);
    }
  }

  /** Arbitration was lost at some time after a byte went out. */
  ghost predicate LostAfterSending(twis: seq<Twi>) {
    exists i, j :: 0 <= i < j < |twis| && twis[i] == SentAck && twis[j] == ArbitrationLost
  }

  /** While a transfer of `n` bytes is under way. */
  lemma {:induction false} LostMeans(completion: Status, n: nat, r: nat, twis: seq<Twi>)
    ensures var t := EngineRun(Engine(ACTIVE, completion, Fresh(n, r)), twis).transfer;
            && (t.lostTx > 0 <==> n > 0 && LostAfterSending(twis))
            && (t.tx + t.lostTx > 0 <==> n > 0 && SentAck in twis)
            && t.tx + t.toSend + t.lostTx == n
  {
    if twis != [] {
      var k := |twis| - 1;
      var front := twis[..k];
      LostMeans(completion, n, r, front);
      assert SentAck in twis <==> SentAck in front || twis[k] == SentAck;
      assert LostAfterSending(twis) <==> LostAfterSending(front) || (twis[k] == ArbitrationLost && SentAck in front) by {
        LostMore(twis);
      }
    }
  }

  lemma LostMore(twis: seq<Twi>)
    requires twis != []
    ensures var k := |twis| - 1;
            LostAfterSending(twis) <==> LostAfterSending(twis[..k]) || (twis[k] == ArbitrationLost && SentAck in twis[..k])
  {
    var k := |twis| - 1;
    if twis[k] == ArbitrationLost && SentAck in twis[..k] {
      var i :| 0 <= i < k && twis[..k][i] == SentAck;
      assert twis[i] == SentAck;
    }
    if LostAfterSending(twis[..k]) {
      var i, j :| 0 <= i < j < k && twis[..k][i] == SentAck && twis[..k][j] == ArbitrationLost;
      assert twis[i] == SentAck && twis[j] == ArbitrationLost;
    }
    if LostAfterSending(twis) {
      var i, j :| 0 <= i < j < |twis| && twis[i] == SentAck && twis[j] == ArbitrationLost;
      assert twis[..k][i] == SentAck;
      if j < k {
        assert twis[..k][j] == ArbitrationLost;
      }
    }
  }

  /** A write that completes is short if and only if arbitration was lost at some time after a byte of
      it went out: the engine starts again at the first byte, but with what was left to send. */
  lemma ShortExactlyWhen(completion: Status, n: nat, r: nat, twis: seq<Twi>)
    requires EngineRun(Engine(ACTIVE, completion, Fresh(n, r)), twis).bus == ACTIVE
    ensures var e := EngineRun(Engine(ACTIVE, completion, Fresh(n, r)), twis);
            EngineStep(e, SentAck).bus == COMPLETED ==>
              (e.transfer.tx < n <==> n > 0 && LostAfterSending(twis))
  {
    LostMeans(completion, n, r, twis);
    hide EngineRun;
  }

  /** A write of one byte. */
  const BRIEF := Rb(3, false, 7, 1, 0, false, false)

  lemma BriefStarts()
    ensures var m := Step(Step(Initial(2), Enqueue(BRIEF)), Interrupt(SentAck));
            && m.queue == [BRIEF] && m.current && m.bus == ACTIVE && m.phase == OFF && m.completion == OK
            && m.transfer == Fresh(1, 0).(toSend := 0, tx := 1)
  {
    var m := Step(Initial(2), Enqueue(BRIEF));
    assert m.queue == [BRIEF] && m.bus == ACTIVE && m.transfer == Fresh(1, 0);
  }

  lemma BriefEnds(m: Manager)
    requires m.queue == [BRIEF] && m.current && m.bus == ACTIVE && m.phase == OFF && m.completion == OK
    requires m.transfer == Fresh(1, 0).(toSend := 0, tx := 1)
    ensures var m' := Step(m, Interrupt(ArbitrationLost));
            && m'.transfer.tx == 0 && m'.transfer.sendLen == 1
            && Step(m', Interrupt(SentAck)).status == m.status[3 := OK]
  {
    var m' := Step(m, Interrupt(ArbitrationLost));
    assert m' == m.(transfer := m.transfer.(tx := 0, lostTx := 1));
  }

  /** Such a write is reported as a success: here nothing of it has gone out since the last start. */
  lemma ShortWriteSucceeds()
    ensures var m := Run(Initial(2), [Enqueue(BRIEF), Interrupt(SentAck), Interrupt(ArbitrationLost)]);
            var m' := Step(m, Interrupt(SentAck));
            && m.transfer.tx == 0 && m.transfer.sendLen == 1
            && 3 in m'.status && m'.status[3] == OK
  {
    BriefStarts();
    BriefEnds(Step(Step(Initial(2), Enqueue(BRIEF)), Interrupt(SentAck)));
    hide Step;
    RunOfThree(Initial(2), Enqueue(BRIEF), Interrupt(SentAck), Interrupt(ArbitrationLost));
  }
}
