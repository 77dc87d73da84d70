/** What a requester is told: in every run a request leaves with the status of its own last transfer that
    was not a deselection, and that is what the bus said of it. */
module I2cOutcomes {
  import opened I2cRequests

  /** A transfer that has ended. */
  datatype Transferred = Transferred(rb: Rb, phase: Phase, status: Status)

  /** The last transfer of the request at the head that has ended and was not a deselection. */
  function Verdict(bus: seq<Event>): seq<Transferred> {
    if bus == [] then []
    else
      var n := |bus| - 1;
      match bus[n]
      case Began(_, _) => Verdict(bus[..n])
      case Left(_, _) => []
      case Ended(_, status) =>
        if n > 0 && bus[n - 1].Began? && bus[n - 1].phase != EPILOG then [Transferred(bus[n - 1].rb, bus[n - 1].phase, status)]
        else Verdict(bus[..n])
  }

  /** How the request that leaves at j should be told: TIMEOUT if a transfer of it is still under way, or
      else the status of its last transfer, the payload or a selection that failed or was all there was. */
  ghost predicate ToldWell(bus: seq<Event>, j: nat)
    requires j < |bus| && bus[j].Left?
  {
    var id, status := bus[j].id, bus[j].status;
    && j > 0
    && if bus[j - 1].Began? then bus[j - 1].rb.id == id && status == TIMEOUT
       else
         var v := Verdict(bus[..j]);
         && |v| == 1 && v[0].rb.id == id && v[0].status == status && status in {OK, NEGATIVE_ACKNOWLEDGE, TRANSMIT_ERROR}
         && (v[0].phase == OFF <==> !v[0].rb.muxed) && v[0].phase != EPILOG
         && (v[0].phase == PROLOG ==> status != OK || v[0].rb.device == 0)
  }

  ghost predicate AllTold(bus: seq<Event>) {
    forall j :: 0 <= j < |bus| && bus[j].Left? ==> ToldWell(bus, j)
  }

  predicate Settled(status: Status) {
    status == OK || status == NEGATIVE_ACKNOWLEDGE || status == TRANSMIT_ERROR
  }

  /** The verdict that the manager carries through a deselection. */
  ghost predicate Carried(bus: seq<Event>, rb: Rb, overall: Status) {
    Verdict(bus) == [Transferred(rb, PAYLOAD, overall)]
  }

  ghost predicate OutcomeOk(m: Manager) {
    && AllTold(m.log.bus) && Settled(m.completion) && Settled(m.overall)
    && (m.bus == FREE ==> !m.current)
    && (m.current ==>
          && m.bus == ACTIVE && m.queue != [] && (m.queue[0].muxed <==> m.phase != OFF)
          && m.log.bus != [] && m.log.bus[|m.log.bus| - 1] == Began(m.queue[0], m.phase)
          && (m.phase != EPILOG ==> m.completion == OK)
          && (m.phase == EPILOG ==> Carried(m.log.bus, m.queue[0], m.overall) && m.completion == m.overall))
  }

  // ---------------------------------------------------------------- one event more

  lemma VerdictMore(bus: seq<Event>, e: Event)
    ensures Verdict(bus + [e]) ==
            match e
            case Began(_, _) => Verdict(bus)
            case Left(_, _) => []
            case Ended(_, status) =>
              if bus != [] && bus[|bus| - 1].Began? && bus[|bus| - 1].phase != EPILOG
              then [Transferred(bus[|bus| - 1].rb, bus[|bus| - 1].phase, status)]
              else Verdict(bus)
  {
    assert (bus + [e])[..|bus|] == bus;
  }

  lemma ToldMore(bus: seq<Event>, e: Event)
    requires AllTold(bus) && (e.Left? ==> ToldWell(bus + [e], |bus|))
    ensures AllTold(bus + [e])
  {
    hide Verdict;
    var r := bus + [e];
    forall j | 0 <= j < |r| && r[j].Left? ensures ToldWell(r, j) {
      if j < |bus| {
        assert r[..j] == bus[..j];
      }
    }
  }

  /** A request leaves with its verdict. */
  lemma LeavesWell(bus: seq<Event>, t: Transferred)
    requires AllTold(bus) && bus != [] && !bus[|bus| - 1].Began? && Verdict(bus) == [t] && Settled(t.status) && t.phase != EPILOG
    requires (t.phase == OFF <==> !t.rb.muxed) && (t.phase == PROLOG ==> t.status != OK || t.rb.device == 0)
    ensures AllTold(bus + [Left(t.rb.id, t.status)])
  {
    hide Verdict;
    assert (bus + [Left(t.rb.id, t.status)])[..|bus|] == bus;
    ToldMore(bus, Left(t.rb.id, t.status));
  }

  // ---------------------------------------------------------------- steps

  lemma StartTells(m: Manager)
    requires AllTold(m.log.bus) && Settled(m.completion) && Settled(m.overall) && m.bus == FREE && (m.current ==> m.queue != [])
    ensures OutcomeOk(StartTransaction(m))
  {
    if m.queue != [] {
      ToldMore(m.log.bus, Began(m.queue[0], if m.queue[0].muxed then PROLOG else OFF));
    }
    hide AllTold, Carried;
  }

  lemma LeaveTells(m: Manager, status: Status)
    requires m.queue != [] && AllTold(m.log.bus + [Left(m.queue[0].id, status)]) && Settled(m.completion) && Settled(m.overall)
    ensures OutcomeOk(StartTransaction(Dequeue(m, status)))
  {
    hide AllTold, StartTransaction, OutcomeOk;
    StartTells(Dequeue(m, status));
  }

  lemma GoOnTells(m: Manager, phase: Phase)
    requires m.queue != [] && m.current && AllTold(m.log.bus) && Settled(m.completion) && Settled(m.overall)
    requires (m.queue[0].muxed <==> phase != OFF) && (phase != EPILOG ==> m.completion == OK)
    requires phase == EPILOG ==> Carried(m.log.bus, m.queue[0], m.overall) && m.completion == m.overall
    ensures OutcomeOk(Begin(m, phase)) && StartTransaction(Begin(m, phase)) == Begin(m, phase)
  {
    VerdictMore(m.log.bus, Began(m.queue[0], phase));
    ToldMore(m.log.bus, Began(m.queue[0], phase));
    hide AllTold, Verdict;
  }

  /** The transfer under way has just ended, and been booked. */
  ghost predicate Booked(m: Manager) {
    && m.queue != [] && m.current && m.bus == COMPLETED && Settled(m.completion) && Settled(m.overall)
    && (m.queue[0].muxed <==> m.phase != OFF) && AllTold(m.log.bus)
    && m.log.bus != [] && !m.log.bus[|m.log.bus| - 1].Began?
    && (m.phase != EPILOG ==> Verdict(m.log.bus) == [Transferred(m.queue[0], m.phase, m.completion)])
    && (m.phase == EPILOG ==> Carried(m.log.bus, m.queue[0], m.overall))
  }

  lemma FinishTells(m: Manager)
    requires Booked(m)
    ensures OutcomeOk(StartTransaction(Finish(m)))
  {
    var rb, bus := m.queue[0], m.log.bus;
    hide AllTold, Verdict, OutcomeOk, Begin, Dequeue, StartTransaction;
    var done := m.(overall := m.completion);
    match m.phase
    case PROLOG =>
      if m.completion == OK && rb.device != 0 {
        GoOnTells(done, PAYLOAD);
      } else {
        LeavesWell(bus, Transferred(rb, PROLOG, m.completion));
        LeaveTells(done.(retry := 0), done.overall);
      }
    case PAYLOAD =>
      if m.muxCount == 1 {
        LeavesWell(bus, Transferred(rb, PAYLOAD, m.completion));
        LeaveTells(done.(phase := OFF, retry := 0), done.overall);
      } else {
        GoOnTells(done, EPILOG);
      }
    case EPILOG =>
      LeavesWell(bus, Transferred(rb, PAYLOAD, m.overall));
      LeaveTells(m.(phase := OFF, retry := 0), m.overall);
    case OFF =>
      LeavesWell(bus, Transferred(rb, OFF, m.completion));
      LeaveTells(done.(retry := 0), m.completion);
  }

  /** What the bus reports of a transfer: nothing is reported by a success, so a deselection keeps the
      status of the payload before it. */
  function Reported(m: Manager, twi: Twi): Status {
    match twi
    case Nack => NEGATIVE_ACKNOWLEDGE
    case BusError => TRANSMIT_ERROR
    case _ => if m.phase == EPILOG then m.overall else OK
  }

  /** Whether it is over. */
  predicate EndsBy(t: Transfer, twi: Twi) {
    twi == Nack || twi == BusError || twi == ReceivedNack || (twi == SentAck && t.toSend == 0 && t.toReceive == 0)
  }

  lemma ByteTells(m: Manager, twi: Twi)
    requires OutcomeOk(m) && m.current
    ensures var h := HandleByte(m, twi);
            && h == m.(bus := h.bus, completion := h.completion, transfer := h.transfer)
            && (h.bus == COMPLETED <==> EndsBy(m.transfer, twi)) && (h.bus != COMPLETED ==> h.bus == ACTIVE && h.completion == m.completion)
            && (h.bus == COMPLETED ==> h.completion == Reported(m, twi))
  {
    hide AllTold, Carried;
  }

  /** The end of a transfer is booked with what was reported. */
  lemma EndTells(m: Manager, twi: Twi)
    requires OutcomeOk(m) && m.current && EndsBy(m.transfer, twi)
    ensures var h, e := HandleByte(m, twi), Ended(m.queue[0].id, Reported(m, twi));
            Booked(h.(retry := CountRetry(h), log := h.log.(bus := h.log.bus + [e])))
  {
    ByteTells(m, twi);
    var e := Ended(m.queue[0].id, Reported(m, twi));
    VerdictMore(m.log.bus, e);
    ToldMore(m.log.bus, e);
    hide AllTold, Verdict, HandleByte, CountRetry;
  }

  lemma InterruptTells(m: Manager, twi: Twi)
    requires OutcomeOk(m) && m.current
    ensures OutcomeOk(Step(m, Interrupt(twi)))
  {
    ByteTells(m, twi);
    var h := HandleByte(m, twi);
    if EndsBy(m.transfer, twi) {
      EndTells(m, twi);
      var r := CountRetry(h);
      var m1 := h.(retry := r, log := h.log.(bus := h.log.bus + [Ended(h.queue[0].id, h.completion)]));
      assert m1.queue != [] && AllTold(m1.log.bus) && Settled(m1.completion) && Settled(m1.overall);
      hide HandleByte, CountRetry, AllTold, Verdict, OutcomeOk, StartTransaction, Finish;
      if Final(h, r) {
        FinishTells(m1);
      } else {
        StartTells(m1.(bus := FREE));
      }
    } else {
      hide HandleByte, AllTold, Carried;
    }
  }

  lemma IdleTells(m: Manager, twi: Twi)
    requires OutcomeOk(m) && !m.current
    ensures OutcomeOk(Step(m, Interrupt(twi)))
  {
    var h := HandleByte(m, twi);
    assert Settled(h.completion) && h == m.(bus := h.bus, completion := h.completion, transfer := h.transfer);
    assert Complete(h) == h;
    hide HandleByte, AllTold, StartTransaction, Complete;
    if h.bus == FREE {
      StartTells(h);
    } else {
      NotFree(h);
    }
  }

  lemma NotFree(m: Manager)
    requires m.bus != FREE
    ensures StartTransaction(m) == m
  {
  }

  lemma StepTells(m: Manager, op: Op)
    requires OutcomeOk(m)
    ensures OutcomeOk(Step(m, op))
  {
    match op
    case Enqueue(rb) =>
      var m1 := m.(queue := m.queue + [rb], status := m.status[rb.id := PENDING],
                   log := m.log.(accepted := m.log.accepted + [rb.id]));
      hide AllTold, Carried, StartTransaction;
      if m.bus == FREE {
        StartTells(m1);
      } else {
        NotFree(m1);
      }
    case Interrupt(twi) =>
      hide Step, OutcomeOk;
      if m.current {
        InterruptTells(m, twi);
      } else {
        IdleTells(m, twi);
      }
    case Overdue =>
      if m.bus == ACTIVE && m.queue != [] && m.current {
        ToldMore(m.log.bus, Left(m.queue[0].id, TIMEOUT));
        hide AllTold, Carried, StartTransaction, Dequeue;
        LeaveTells(m.(transfer := m.transfer.(toSend := 0, toReceive := 0)), TIMEOUT);
      }
  }

  lemma {:induction false} RunTells(muxCount: nat, ops: seq<Op>)
    ensures OutcomeOk(Run(Initial(muxCount), ops))
  {
    if ops != [] {
      var n := |ops| - 1;
      RunTells(muxCount, ops[..n]);
      StepTells(Run(Initial(muxCount), ops[..n]), ops[n]);
      hide Step, OutcomeOk;
    }
  }

  // ---------------------------------------------------------------- main results

  /** In every run, every request that leaves is told TIMEOUT exactly if a transfer of it was still under
      way, and otherwise the status with which its own last transfer ended that was not a deselection:
      the payload, or the selection if that failed or the request is for the multiplexer alone. */
  lemma LeavesWithItsVerdict(muxCount: nat, ops: seq<Op>, j: nat)
    requires var bus := Run(Initial(muxCount), ops).log.bus; j < |bus| && bus[j].Left?
    ensures ToldWell(Run(Initial(muxCount), ops).log.bus, j)
  {
    RunTells(muxCount, ops);
    hide Run, ToldWell;
  }

  /** In every run, an interrupt ends the transfer under way exactly if it reports an error, a last byte
      received, or a byte sent with nothing left to do; and the end is booked with what it reports:
      no acknowledgement, a bus error, or else a success. */
  lemma EndsAsReported(muxCount: nat, ops: seq<Op>, twi: Twi)
    ensures var m := Run(Initial(muxCount), ops);
            var bus, bus' := m.log.bus, Step(m, Interrupt(twi)).log.bus;
            m.current ==>
              && m.queue != []
              && (EndsBy(m.transfer, twi) ==> bus + [Ended(m.queue[0].id, Reported(m, twi))] <= bus')
              && (!EndsBy(m.transfer, twi) ==> bus' == bus)
  {
    RunTells(muxCount, ops);
    var m := Run(Initial(muxCount), ops);
    hide Run;
    if m.current {
      ByteTells(m, twi);
      var h := HandleByte(m, twi);
      hide HandleByte, OutcomeOk;
      if EndsBy(m.transfer, twi) {
        CompleteBooks(h);
      } else {
        NotFree(h);
      }
    }
  }

  lemma CompleteBooks(m: Manager)
    requires m.bus == COMPLETED && m.current && m.queue != []
    ensures m.log.bus + [Ended(m.queue[0].id, m.completion)] <= StartTransaction(Complete(m)).log.bus
  {
    CompleteCourse(m);
    hide Complete, StartTransaction, Follows, Successor;
  }

  /** The status a request last left with. */
  function LastTold(bus: seq<Event>, id: nat): seq<Status> {
    if bus == [] then []
    else
      var e := bus[|bus| - 1];
      if e.Left? && e.id == id then [e.status] else LastTold(bus[..|bus| - 1], id)
  }

  /** What requesters read: their status, unless it is pending, is the one they last left with. */
  ghost predicate Posted(m: Manager) {
    forall id :: id in m.status && m.status[id] != PENDING ==> LastTold(m.log.bus, id) == [m.status[id]]
  }

  lemma LastToldMore(bus: seq<Event>, e: Event, id: nat)
    ensures LastTold(bus + [e], id) == if e.Left? && e.id == id then [e.status] else LastTold(bus, id)
  {
    assert (bus + [e])[..|bus|] == bus;
  }

  /** One more event and its effect on the statuses. */
  lemma PostedMore(m: Manager, m': Manager, e: Event)
    requires Posted(m) && m'.log.bus == m.log.bus + [e]
    requires m'.status == if e.Left? then m.status[e.id := e.status] else m.status
    ensures Posted(m')
  {
    hide LastTold;
    forall id | id in m'.status && m'.status[id] != PENDING ensures LastTold(m'.log.bus, id) == [m'.status[id]] {
      LastToldMore(m.log.bus, e, id);
    }
  }

  lemma StartPosts(m: Manager)
    requires Posted(m)
    ensures Posted(StartTransaction(m))
  {
    if m.bus == FREE && m.queue != [] {
      PostedMore(m, StartTransaction(m), Began(m.queue[0], if m.queue[0].muxed then PROLOG else OFF));
    }
    hide Posted;
  }

  lemma BeginPosts(m: Manager, phase: Phase)
    requires Posted(m) && m.queue != []
    ensures Posted(Begin(m, phase))
  {
    PostedMore(m, Begin(m, phase), Began(m.queue[0], phase));
  }

  lemma DequeuePosts(m: Manager, status: Status)
    requires Posted(m) && m.queue != []
    ensures Posted(Dequeue(m, status))
  {
    PostedMore(m, Dequeue(m, status), Left(m.queue[0].id, status));
  }

  lemma FinishPosts(m: Manager)
    requires Posted(m) && m.queue != []
    ensures Posted(Finish(m))
  {
    var done := m.(overall := m.completion);
    assert Posted(done) && Posted(done.(retry := 0)) && Posted(done.(phase := OFF, retry := 0)) && Posted(m.(phase := OFF, retry := 0));
    BeginPosts(done, PAYLOAD);
    BeginPosts(done, EPILOG);
    DequeuePosts(done.(retry := 0), m.completion);
    DequeuePosts(done.(phase := OFF, retry := 0), m.completion);
    DequeuePosts(m.(phase := OFF, retry := 0), m.overall);
    hide Posted, Begin, Dequeue;
  }

  lemma CompletePosts(m: Manager)
    requires Posted(m)
    ensures Posted(Complete(m))
  {
    if m.bus == COMPLETED && m.current && m.queue != [] {
      var r := CountRetry(m);
      var e := Ended(m.queue[0].id, m.completion);
      var m1 := m.(retry := r, log := m.log.(bus := m.log.bus + [e]));
      PostedMore(m, m1, e);
      assert Posted(m1.(bus := FREE));
      hide Posted, Finish;
      if Final(m, r) {
        FinishPosts(m1);
      }
    }
  }

  lemma StepPosts(m: Manager, op: Op)
    requires Posted(m)
    ensures Posted(Step(m, op))
  {
    match op
    case Enqueue(rb) =>
      var m1 := m.(queue := m.queue + [rb], status := m.status[rb.id := PENDING],
                   log := m.log.(accepted := m.log.accepted + [rb.id]));
      assert Posted(m1);
      hide Posted, StartTransaction;
      StartPosts(m1);
    case Interrupt(twi) =>
      assert Posted(HandleByte(m, twi));
      hide Posted, StartTransaction, Complete, HandleByte;
      CompletePosts(HandleByte(m, twi));
      StartPosts(Complete(HandleByte(m, twi)));
    case Overdue =>
      if m.bus == ACTIVE && m.queue != [] && m.current {
        var m1 := m.(transfer := m.transfer.(toSend := 0, toReceive := 0));
        assert Posted(m1);
        hide Posted, StartTransaction, Dequeue;
        DequeuePosts(m1, TIMEOUT);
        StartPosts(Dequeue(m1, TIMEOUT));
      }
  }

  /** In every run, what a requester reads once its request is no longer pending is the status with which
      it last left. */
  lemma {:induction false} StatusIsPosted(muxCount: nat, ops: seq<Op>)
    ensures Posted(Run(Initial(muxCount), ops))
  {
    if ops != [] {
      var n := |ops| - 1;
      StatusIsPosted(muxCount, ops[..n]);
      StepPosts(Run(Initial(muxCount), ops[..n]), ops[n]);
      hide Step, Posted;
    }
  }

  // ---------------------------------------------------------------- the course of a request

  function FirstPhase(rb: Rb): Phase {
    if rb.muxed then PROLOG else OFF
  }

  /** What follows the end of a transfer of `rb`: another attempt after a failure, while the counter is at
      most two and the request allows it; the payload after its selection; the deselection after the
      payload, unless there is just one multiplexer; or else the request leaves. */
  ghost predicate Follows(m: Manager, s: Status, e: Event)
    requires m.queue != []
  {
    var rb := m.queue[0];
    if s != OK && !rb.noRetry && (m.retry + 1) % 256 <= 2 then e == Began(rb, FirstPhase(rb))
    else if m.phase == PROLOG && s == OK && rb.device != 0 then e == Began(rb, PAYLOAD)
    else if m.phase == PAYLOAD && m.muxCount != 1 then e == Began(rb, EPILOG)
    else e == Left(rb.id, if m.phase == EPILOG then m.overall else s)
  }

  function Counted(retry: nat, s: Status, e: Event): nat {
    if e.Left? then 0 else if s == OK then retry else (retry + 1) % 256
  }

  /** And when it has left, the one behind it begins. */
  function Successor(q: seq<Rb>): seq<Event> {
    if |q| > 1 then [Began(q[1], FirstPhase(q[1]))] else []
  }

  /** What follows the last attempt at a transfer. */
  function Last(m: Manager): Event
    requires m.queue != []
  {
    if m.phase == PROLOG && m.completion == OK && m.queue[0].device != 0 then Began(m.queue[0], PAYLOAD)
    else if m.phase == PAYLOAD && m.muxCount != 1 then Began(m.queue[0], EPILOG)
    else Left(m.queue[0].id, if m.phase == EPILOG then m.overall else m.completion)
  }

  lemma FinishBooks(m: Manager)
    requires m.queue != [] && m.bus == COMPLETED
    ensures var f := Finish(m);
            && f.log.bus == m.log.bus + [Last(m)]
            && if Last(m).Left? then f.bus == FREE && f.queue == m.queue[1..] && f.retry == 0
               else f.bus == ACTIVE && f.retry == m.retry
  {
  }

  lemma FinishCourse(m: Manager)
    requires m.queue != [] && m.bus == COMPLETED
    ensures var m', e := StartTransaction(Finish(m)), Last(m);
            && m'.log.bus == m.log.bus + [e] + (if e.Left? then Successor(m.queue) else [])
            && m'.retry == if e.Left? then 0 else m.retry
  {
    FinishBooks(m);
    hide Finish, Last;
  }

  lemma CompleteCourse(m: Manager)
    requires m.bus == COMPLETED && m.current && m.queue != []
    ensures var bus := m.log.bus + [Ended(m.queue[0].id, m.completion)];
            var m' := StartTransaction(Complete(m));
            exists e: Event ::
              && Follows(m, m.completion, e) && m'.log.bus == bus + [e] + (if e.Left? then Successor(m.queue) else [])
              && m'.retry == Counted(m.retry, m.completion, e)
  {
    var r := CountRetry(m);
    var bus := m.log.bus + [Ended(m.queue[0].id, m.completion)];
    var m1 := m.(retry := r, log := m.log.(bus := bus));
    hide Finish, Successor;
    if Final(m, r) {
      FinishCourse(m1);
      assert Follows(m, m.completion, Last(m1));
      hide StartTransaction;
    } else {
      var e := Began(m.queue[0], FirstPhase(m.queue[0]));
      assert StartTransaction(m1.(bus := FREE)).log.bus == bus + [e];
      assert bus + [e] + [] == bus + [e];
    }
  }

  /** In every run, exactly one thing follows the end of a transfer, as above; the retry counter, a byte,
      counts failures and starts again at zero when the request leaves. */
  lemma CourseOfARequest(muxCount: nat, ops: seq<Op>, twi: Twi)
    ensures var m := Run(Initial(muxCount), ops);
            m.current && EndsBy(m.transfer, twi) ==>
              && m.queue != []
              && var s, m' := Reported(m, twi), Step(m, Interrupt(twi));
                 exists e: Event ::
                   && Follows(m, s, e) && m'.retry == Counted(m.retry, s, e)
                   && m'.log.bus == m.log.bus + [Ended(m.queue[0].id, s)] + [e] + if e.Left? then Successor(m.queue) else []
  {
    RunTells(muxCount, ops);
    var m := Run(Initial(muxCount), ops);
    hide Run;
    if m.current && EndsBy(m.transfer, twi) {
      ByteTells(m, twi);
      var h := HandleByte(m, twi);
      hide HandleByte, OutcomeOk, Successor;
      CompleteCourse(h);
      hide Complete, StartTransaction;
      assert forall e :: Follows(h, h.completion, e) <==> Follows(m, h.completion, e);
    }
  }

  /** A request that comes while nothing is going on begins at once, and one that comes later waits. */
  lemma BeginsAtOnce(m: Manager, rb: Rb)
    requires !(rb.readOnly && rb.readLen == 0)
    ensures var m' := Step(m, Enqueue(rb));
            m'.log.bus == m.log.bus + if m.bus != FREE then [] else [Began((m.queue + [rb])[0], FirstPhase((m.queue + [rb])[0]))]
  {
  }

  /** An overdue request leaves, and the one behind it begins; the retry counter stays. */
  lemma OverdueCourse(m: Manager)
    requires m.current && m.bus == ACTIVE && m.queue != []
    ensures Step(m, Overdue).log.bus == m.log.bus + [Left(m.queue[0].id, TIMEOUT)] + Successor(m.queue)
    ensures Step(m, Overdue).retry == m.retry
  {
  }
}
