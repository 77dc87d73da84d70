/** The programs of the command station are orderly, so AckWindDown's results hold of every request;
    and a program that is not orderly for which they fail. */
module AckOrder {
  import opened AckPrograms
  import opened AckMachine
  import opened AckLibrary
  import opened AckWindDown

  /** Code that neither takes a baseline nor, unless it may, writes. */
  predicate Tame(c: Code, mayWrite: bool) {
    NoBaseline(c) && (mayWrite || WritesNothing(c))
  }

  predicate TameCell(c: Cell, mayWrite: bool) {
    c != BASELINE && (mayWrite || !Writes(c))
  }

  lemma TameOp(c: Cell, rest: Code, w: bool)
    requires TameCell(c, w) && Tame(rest, w)
    ensures Tame(Op(c, rest), w)
  {
  }

  lemma TameEnd(w: bool)
    ensures Tame(End, w) && Tame(FAIL, w)
  {
    TameOp(CALLFAIL, End, w);
  }

  lemma TameAsk(c: Cell, rest: Code, w: bool)
    requires TameCell(c, w) && Tame(rest, w)
    ensures Tame(Ask(c, rest), w)
  {
    hide Tame;
    TameOp(WACK, rest, w);
    TameOp(c, Op(WACK, rest), w);
  }

  lemma TameSet(c: Cell, n: nat, rest: Code, w: bool)
    requires Sets(c) && Tame(rest, w)
    ensures Tame(Op(c, Op(Num(n), rest)), w)
  {
    hide Tame;
    TameOp(Num(n), rest, w);
    TameOp(c, Op(Num(n), rest), w);
  }

  lemma {:induction false} TameRead(n: nat, rest: Code, w: bool)
    requires Tame(rest, w)
    ensures Tame(Read(n, rest), w)
  {
    hide Tame;
    if n > 0 {
      TameRead(n - 1, rest, w);
      TameOp(MERGE, Read(n - 1, rest), w);
      TameAsk(V0, Op(MERGE, Read(n - 1, rest)), w);
    }
  }

  lemma TameReadAll(rest: Code, w: bool)
    requires Tame(rest, w)
    ensures Tame(ReadAll(rest), w)
  {
    hide Tame, Read;
    TameAsk(VB, rest, w);
    TameRead(8, Ask(VB, rest), w);
    TameOp(STARTMERGE, Read(8, Ask(VB, rest)), w);
  }

  lemma TameReadCarefully(rest: Code)
    requires Tame(rest, false)
    ensures Tame(ReadCarefully(rest), false)
  {
    hide Tame, Read;
    TameAsk(VB, rest, false);
    var c := Read(7, Ask(VB, rest));
    TameRead(7, Ask(VB, rest), false);
    TameOp(SKIPTARGET, c, false);
    TameSet(SETBIT, 6, Op(SKIPTARGET, c), false);
    TameOp(NAKFAIL, SetBit(6, Op(SKIPTARGET, c)), false);
    TameAsk(V1, Op(NAKFAIL, SetBit(6, Op(SKIPTARGET, c))), false);
    TameSet(SETBIT, 7, Ask(V1, Op(NAKFAIL, SetBit(6, Op(SKIPTARGET, c)))), false);
    TameOp(ITSKIP, Excursion(c), false);
    TameOp(MERGE, Op(ITSKIP, Excursion(c)), false);
    TameAsk(V0, Op(MERGE, Op(ITSKIP, Excursion(c))), false);
    TameOp(STARTMERGE, ReadFirst(c), false);
  }

  lemma TameReadShort()
    ensures Tame(ReadShort(), false)
  {
    hide Tame, Read;
    TameEnd(false);
    TameOp(ITCB, FAIL, false);
    TameAsk(VB, Op(ITCB, FAIL), false);
    var c := Read(7, Ask(VB, Op(ITCB, FAIL)));
    TameRead(7, Ask(VB, Op(ITCB, FAIL)), false);
    TameSet(SETBIT, 6, c, false);
    TameOp(STARTMERGE, SetBit(6, c), false);
    TameSet(SETCV, 1, Op(STARTMERGE, SetBit(6, c)), false);
  }

  lemma TameReadLong(rest: Code)
    requires Tame(rest, false)
    ensures Tame(ReadLong(rest), false)
  {
    hide Tame, ReadAll;
    TameOp(COMBINELOCOID, rest, false);
    TameOp(NAKFAIL, Op(COMBINELOCOID, rest), false);
    var c := ReadAll(Op(NAKFAIL, Op(COMBINELOCOID, rest)));
    TameReadAll(Op(NAKFAIL, Op(COMBINELOCOID, rest)), false);
    TameSet(SETCV, 18, c, false);
    TameOp(STASHLOCOID, SetCv(18, c), false);
    TameOp(NAKFAIL, Op(STASHLOCOID, SetCv(18, c)), false);
    TameReadAll(Op(NAKFAIL, Op(STASHLOCOID, SetCv(18, c))), false);
    TameSet(SETCV, 17, ReadAll(Op(NAKFAIL, Op(STASHLOCOID, SetCv(18, c)))), false);
  }

  lemma TameReadAddress()
    ensures Tame(ReadAddress(), false)
  {
    hide Tame, ReadLong, ReadShort;
    TameReadShort();
    TameOp(SKIPTARGET, ReadShort(), false);
    var c := ReadLong(Op(SKIPTARGET, ReadShort()));
    TameReadLong(Op(SKIPTARGET, ReadShort()));
    TameOp(ITSKIP, c, false);
    TameAsk(V0, Op(ITSKIP, c), false);
    TameSet(SETBIT, 5, Ask(V0, Op(ITSKIP, c)), false);
    TameSet(SETCV, 29, SetBit(5, Ask(V0, Op(ITSKIP, c))), false);
  }

  lemma TameReadBoth(rest: Code)
    requires Tame(rest, false)
    ensures Tame(ReadBoth(rest), false)
  {
    hide Tame, ReadAll;
    TameOp(SKIPTARGET, rest, false);
    TameOp(COMBINE1920, Op(SKIPTARGET, rest), false);
    var c := Op(NAKFAIL, Op(COMBINE1920, Op(SKIPTARGET, rest)));
    TameOp(NAKFAIL, Op(COMBINE1920, Op(SKIPTARGET, rest)), false);
    TameReadAll(c, false);
    TameSet(SETCV, 19, ReadAll(c), false);
    TameOp(STASHLOCOID, SetCv(19, ReadAll(c)), false);
  }

  lemma TameReadExtended(rest: Code)
    requires Tame(rest, false)
    ensures Tame(ReadExtended(rest), false)
  {
    hide Tame, ReadAll, ReadBoth;
    TameReadBoth(rest);
    TameOp(BAD20SKIP, ReadBoth(rest), false);
    TameOp(NAKSKIP, Op(BAD20SKIP, ReadBoth(rest)), false);
    var c := ReadAll(Op(NAKSKIP, Op(BAD20SKIP, ReadBoth(rest))));
    TameReadAll(Op(NAKSKIP, Op(BAD20SKIP, ReadBoth(rest))), false);
    TameOp(ITSKIP, c, false);
    TameAsk(VB, Op(ITSKIP, c), false);
    TameSet(SETBYTE, 0, Ask(VB, Op(ITSKIP, c)), false);
    TameSet(SETCV, 20, SetByte(0, Ask(VB, Op(ITSKIP, c))), false);
  }

  /** Ask for a value, then one more operation. */
  lemma TameAskFor(value: nat, c: Cell, rest: Code)
    requires TameCell(c, false) && Tame(rest, false)
    ensures Tame(SetByte(value, Ask(VB, Op(c, rest))), false)
  {
    hide Tame;
    TameOp(c, rest, false);
    TameAsk(VB, Op(c, rest), false);
    TameSet(SETBYTE, value, Ask(VB, Op(c, rest)), false);
  }

  lemma TameDriveaway()
    ensures Orderly(DriveawayProg())
  {
    hide Tame, ReadAll, ReadAddress, ReadExtended;
    TameReadAddress();
    var t := Op(SKIPTARGET, ReadAddress());
    TameOp(SKIPTARGET, ReadAddress(), false);
    TameOp(ITCB7, t, false);
    TameReadAll(Op(ITCB7, t), false);
    TameAskFor(128, ITSKIP, ReadAll(Op(ITCB7, t)));
    TameAskFor(0, ITSKIP, ReadConsist(t));
    var c := SetCv(19, SetByte(0, Ask(VB, Op(ITSKIP, ReadConsist(t)))));
    TameSet(SETCV, 19, SetByte(0, Ask(VB, Op(ITSKIP, ReadConsist(t)))), false);
    TameReadExtended(c);
    Baselined(ReadExtended(c));
  }

  lemma TameReadConsistProg()
    ensures Orderly(ReadConsistProg())
  {
    hide Tame, ReadAll, ReadExtended;
    TameEnd(false);
    TameOp(ITCB7, FAIL, false);
    var c := ReadAll(Op(ITCB7, FAIL));
    TameReadAll(Op(ITCB7, FAIL), false);
    TameAskFor(128, ITC0, c);
    var b := SetByte(128, Ask(VB, Op(ITC0, c)));
    TameAskFor(0, ITC0, b);
    var e := SetCv(19, SetByte(0, Ask(VB, Op(ITC0, b))));
    TameSet(SETCV, 19, SetByte(0, Ask(VB, Op(ITC0, b))), false);
    TameReadExtended(e);
    Baselined(ReadExtended(e));
  }

  lemma Baselined(c: Code)
    requires Tame(c, false)
    ensures Orderly(Op(BASELINE, c))
  {
  }

  /** Programs that read bytes or identities. */
  lemma ReadersAreOrderly()
    ensures Orderly(ReadCvProg()) && Orderly(VerifyByteProg()) && Orderly(ReadIdProg())
  {
    hide Tame, ReadAddress, ReadCarefully, Orderly;
    TameReadAddress();
    Baselined(ReadAddress());
    TameEnd(false);
    TameOp(ITCB, FAIL, false);
    TameReadCarefully(Op(ITCB, FAIL));
    Baselined(ReadCarefully(Op(ITCB, FAIL)));
    TameOp(ITCBV, FAIL, false);
    var c := ReadCarefully(Op(ITCBV, FAIL));
    TameReadCarefully(Op(ITCBV, FAIL));
    TameOp(ITCB, c, false);
    TameAsk(VB, Op(ITCB, c), false);
    TameOp(BIV, Ask(VB, Op(ITCB, c)), false);
    Baselined(Op(BIV, Ask(VB, Op(ITCB, c))));
  }

  /** Programs that test one bit. */
  lemma BitReadersAreOrderly(v: Cell, call: Cell, v': Cell, call': Cell)
    requires v in {V0, V1} && v' in {V0, V1} && call in {ITC0, ITC1} && call' in {ITC0, ITC1}
    ensures Orderly(Op(BASELINE, Ask(v, Op(call, Ask(v', Op(call', FAIL))))))
  {
    hide Tame, Orderly;
    TameEnd(false);
    TameOp(call', FAIL, false);
    TameAsk(v', Op(call', FAIL), false);
    TameOp(call, Ask(v', Op(call', FAIL)), false);
    TameAsk(v, Op(call, Ask(v', Op(call', FAIL))), false);
    Baselined(Ask(v, Op(call, Ask(v', Op(call', FAIL)))));
  }

  lemma TameWriteLast()
    ensures Tame(WriteLast(), true)
  {
    hide Tame;
    TameEnd(true);
    TameOp(ITC1, FAIL, true);
    TameAsk(VB, Op(ITC1, FAIL), true);
    TameOp(ITC1, Ask(VB, Op(ITC1, FAIL)), true);
    TameAsk(WB, Op(ITC1, Ask(VB, Op(ITC1, FAIL))), true);
  }

  lemma TameStoreLow(cv: nat)
    ensures Tame(SetCv(cv, Op(SETBYTEL, WriteLast())), true)
  {
    hide Tame, WriteLast;
    TameWriteLast();
    TameOp(SETBYTEL, WriteLast(), true);
    TameSet(SETCV, cv, Op(SETBYTEL, WriteLast()), true);
  }

  lemma WritersBaselined(c: Code)
    requires Tame(c, true) && WriteAhead(c)
    ensures Orderly(Op(BASELINE, c))
  {
  }

  lemma TameClearConsist(rest: Code)
    requires Tame(rest, true)
    ensures Tame(ClearConsist(rest), true) && WriteAhead(ClearConsist(rest))
  {
    var c := SetCv(19, SetByte(0, Ask(WB, rest)));
    assert WriteAhead(Ask(WB, c));
    assert WriteAhead(SetByte(0, Ask(WB, c)));
    assert WriteAhead(ClearConsist(rest));
    hide Tame, WriteAhead;
    TameAsk(WB, rest, true);
    TameSet(SETBYTE, 0, Ask(WB, rest), true);
    TameSet(SETCV, 19, SetByte(0, Ask(WB, rest)), true);
    TameAsk(WB, c, true);
    TameSet(SETBYTE, 0, Ask(WB, c), true);
    TameSet(SETCV, 20, SetByte(0, Ask(WB, c)), true);
  }

  lemma TameFlag(w: Cell, v: Cell, rest: Code)
    requires w in {W0, W1} && v in {V0, V1} && Tame(rest, true)
    ensures Orderly(Op(BASELINE, ClearConsist(SetCv(29, SetBit(5, Ask(w, Ask(v, Op(NAKFAIL, rest))))))))
  {
    hide Tame, Orderly, ClearConsist, WriteAhead;
    TameOp(NAKFAIL, rest, true);
    TameAsk(v, Op(NAKFAIL, rest), true);
    TameAsk(w, Ask(v, Op(NAKFAIL, rest)), true);
    var c := Ask(w, Ask(v, Op(NAKFAIL, rest)));
    TameSet(SETBIT, 5, c, true);
    TameSet(SETCV, 29, SetBit(5, c), true);
    TameClearConsist(SetCv(29, SetBit(5, c)));
    WritersBaselined(ClearConsist(SetCv(29, SetBit(5, c))));
  }

  lemma IdWritersAreOrderly()
    ensures Orderly(ShortIdProg()) && Orderly(LongIdProg())
  {
    hide Tame, Orderly, ClearConsist, WriteLast;
    TameStoreLow(1);
    TameFlag(W0, V0, SetCv(1, Op(SETBYTEL, WriteLast())));
    TameStoreLow(18);
    var c := SetCv(18, Op(SETBYTEL, WriteLast()));
    TameWriteEither(c);
    TameOp(SETBYTEH, WriteEither(c), true);
    TameSet(SETCV, 17, Op(SETBYTEH, WriteEither(c)), true);
    TameFlag(W1, V1, SetCv(17, Op(SETBYTEH, WriteEither(c))));
  }

  lemma TameWriteEither(c: Code)
    requires Tame(c, true)
    ensures Tame(WriteEither(c), true)
  {
    hide Tame;
    TameOp(SKIPTARGET, c, true);
    var f := Op(CALLFAIL, Op(SKIPTARGET, c));
    TameOp(CALLFAIL, Op(SKIPTARGET, c), true);
    TameOp(ITSKIP, f, true);
    TameAsk(VB, Op(ITSKIP, f), true);
    TameOp(ITSKIP, Ask(VB, Op(ITSKIP, f)), true);
    TameAsk(WB, Op(ITSKIP, Ask(VB, Op(ITSKIP, f))), true);
  }

  lemma ConsistWriterIsOrderly()
    ensures Orderly(ConsistIdProg())
  {
    var c := SetCv(19, Op(SETBYTEL, WriteLast()));
    var d := Op(FAIL_IF_NONZERO_NAK, Op(SKIPTARGET, c));
    var e := SetCv(20, Op(SETBYTEH, Ask(WB, Op(ITSKIP, d))));
    assert WriteAhead(Ask(WB, Op(ITSKIP, d)));
    assert WriteAhead(Op(SETBYTEH, Ask(WB, Op(ITSKIP, d))));
    assert WriteAhead(e);
    hide Tame, Orderly, WriteLast, WriteAhead;
    TameStoreLow(19);
    TameOp(SKIPTARGET, c, true);
    TameOp(FAIL_IF_NONZERO_NAK, Op(SKIPTARGET, c), true);
    TameOp(ITSKIP, d, true);
    TameAsk(WB, Op(ITSKIP, d), true);
    TameOp(SETBYTEH, Ask(WB, Op(ITSKIP, d)), true);
    TameSet(SETCV, 20, Op(SETBYTEH, Ask(WB, Op(ITSKIP, d))), true);
    WritersBaselined(e);
  }

  lemma ByteWritersAreOrderly(on: bool)
    ensures Orderly(WriteByteProg()) && Orderly(WriteBitProg(on))
  {
    var w, v := if on then W1 else W0, if on then V1 else V0;
    var c := Ask(v, Op(ITC1, FAIL));
    assert WriteAhead(WriteLast()) && WriteAhead(Ask(w, c));
    hide Tame, Orderly, WriteAhead;
    TameWriteLast();
    WritersBaselined(WriteLast());
    TameEnd(true);
    TameOp(ITC1, FAIL, true);
    TameAsk(v, Op(ITC1, FAIL), true);
    TameAsk(w, c, true);
    WritersBaselined(Ask(w, c));
  }

  lemma BitProgsAreOrderly(on: bool)
    ensures Orderly(VerifyBitProg(on)) && Orderly(ReadBitProg())
  {
    hide Orderly;
    BitReadersAreOrderly(V1, ITC1, V0, ITC0);
    BitReadersAreOrderly(V0, ITC0, V1, ITC1);
  }

  lemma RequestsAreOrderly(r: Request)
    requires Accept(r).Started?
    ensures Orderly(Accept(r).job.start)
  {
    hide Orderly, WriteByteProg, WriteBitProg, VerifyBitProg, ReadBitProg, VerifyByteProg, ReadCvProg;
    hide DriveawayProg, ReadIdProg, ReadConsistProg, ShortIdProg, LongIdProg, ConsistIdProg;
    ReadersAreOrderly();
    TameDriveaway();
    TameReadConsistProg();
    IdWritersAreOrderly();
    ConsistWriterIsOrderly();
    ByteWritersAreOrderly(true);
    ByteWritersAreOrderly(false);
    BitProgsAreOrderly(true);
    BitProgsAreOrderly(false);
  }

  /** Every request of the programming track winds down properly, over every decoder and however it is
      polled: one callback at most, with the value of the uninterrupted run, the track as it was, and
      the delays kept. */
  lemma EveryRequestWindsDown(r: Request, power0: bool, joined0: bool, retries: nat, wind: Wind, ack: bool, stash: nat,
                              oracle: Oracle, inputs: seq<Input>)
    requires Accept(r).Started? && InOrder(inputs)
    ensures var job := Accept(r).job;
            var s := Setup(job, Track(true, power0), joined0, retries, wind, ack, stash);
            && s.Running?
            && var m := Polls(s.m, job, oracle, inputs);
               && OnCourse(m, Begin(job, ack, stash, retries), job, oracle)
               && (!m.active ==> Ended(m, power0, joined0))
  {
    RequestsAreOrderly(r);
    var job := Accept(r).job;
    hide Accept, Orderly, OnCourse, Ended, Polls;
    WindsDownProperly(job, power0, joined0, retries, wind, ack, stash, oracle, inputs);
  }

  // ---------------------------------------------------------------- why order matters

  /** Verify, and if that fails write and start again. */
  function WriteLater(): Code {
    Op(BASELINE, Ask(VB, Op(ITC1, Ask(WB, FAIL))))
  }

  /** Silent on the first verification, acknowledging afterwards. */
  function Slow(): Oracle {
    sent => |sent| > 2
  }

  function At(now: nat): Input {
    Input(now, true, true)
  }

  /** Polled at times 0 to n - 1. */
  function Polled(m: Machine, job: Job, oracle: Oracle, n: nat): Machine {
    if n == 0 then m else Poll(Polled(m, job, oracle, n - 1), job, oracle, At(n - 1))
  }

  lemma PollAsk(m: Machine, job: Job, oracle: Oracle, t: nat, c: Cell, rest: Code)
    requires m.active && m.vm.rest == Ask(c, rest) && (c == VB || c == WB)
    ensures var p := if c == VB then VerifyByte(m.vm.cv, m.vm.byte) else WriteByte(m.vm.cv, m.vm.byte);
            var vm := m.vm.(rest := rest, sent := m.vm.sent + [p], ack := oracle(m.vm.sent + [p]));
            Poll(Poll(m, job, oracle, At(t)), job, oracle, At(t + 1))
              == m.(vm := vm, wind := if c == WB then AFTER_WRITE else m.wind, writes := if c == WB then m.writes + [t] else m.writes)
  {
  }

  lemma PollBaseline(m: Machine, job: Job, oracle: Oracle, t: nat, rest: Code)
    requires m.active && m.vm.rest == Op(BASELINE, rest)
    ensures Poll(m, job, oracle, At(t)) == m.(vm := m.vm.(rest := rest), wind := AFTER_READ)
  {
  }

  lemma PollCall(m: Machine, job: Job, oracle: Oracle, t: nat, rest: Code)
    requires m.active && m.vm.rest == Op(ITC1, rest)
    ensures Poll(m, job, oracle, At(t)) == if m.vm.ack then WindDown(m, 1, t) else m.(vm := m.vm.(rest := rest))
  {
  }

  lemma PollFail(m: Machine, job: Job, oracle: Oracle, t: nat)
    requires m.active && m.vm.rest == FAIL && m.vm.retry > 0
    ensures Poll(m, job, oracle, At(t)) == m.(vm := Again(m.vm, job))
  {
  }

  lemma PolledOne(m: Machine, job: Job, oracle: Oracle, n: nat)
    ensures Polled(m, job, oracle, n + 1) == Poll(Polled(m, job, oracle, n), job, oracle, At(n))
  {
  }

  lemma PolledTwo(m: Machine, job: Job, oracle: Oracle, n: nat)
    ensures Polled(m, job, oracle, n + 2) == Poll(Poll(Polled(m, job, oracle, n), job, oracle, At(n)), job, oracle, At(n + 1))
  {
    hide Poll;
    PolledOne(m, job, oracle, n);
    PolledOne(m, job, oracle, n + 1);
  }

  lemma NotOrderly()
    ensures !Orderly(WriteLater())
  {
    var c2 := Op(ITC1, Ask(WB, FAIL));
    assert !WriteAhead(Ask(VB, c2)) && !WritesNothing(Ask(WB, FAIL));
    assert !WritesNothing(c2) && !WritesNothing(Ask(VB, c2)) && !WritesNothing(WriteLater());
  }

  /** The delay after a write is forgotten when a pass fails: this program writes at time 4, starts
      again, and takes power away at time 11. */
  lemma WriteForgottenByRetry()
    ensures var job := Job(WriteLater(), 1, 3, 0);
            var m0 := Setup(job, Track(true, false), false, 1, READY, false, 0).m;
            var m := Polled(m0, job, Slow(), 12);
            !Orderly(job.start) && !m.active && m.writes == [4] && m.events == [PowerOff(11), Called(11, 1)]
  {
    var job := Job(WriteLater(), 1, 3, 0);
    var m0 := Setup(job, Track(true, false), false, 1, READY, false, 0).m;
    assert Polled(m0, job, Slow(), 0) == m0;
    hide Polled, Orderly, Ask;
    NotOrderly();
    FirstPass(m0, job);
    SecondPass(m0, job);
  }

  lemma FirstPass(m0: Machine, job: Job)
    requires job.start == WriteLater() && Polled(m0, job, Slow(), 0) == m0
    requires m0.active && m0.vm.rest == job.start && m0.vm.sent == [] && m0.vm.retry == 1 && m0.writes == [] && m0.events == []
    requires m0.autoPowerOff && !m0.rejoin && m0.power
    ensures var m := Polled(m0, job, Slow(), 7);
            && m.active && m.vm.rest == job.start && |m.vm.sent| == 2 && m.autoPowerOff && !m.rejoin
            && m.writes == [4] && m.events == [] && m.power
  {
    hide Poll, Polled;
    var o, c2 := Slow(), Op(ITC1, Ask(WB, FAIL));
    PolledOne(m0, job, o, 0);
    PollBaseline(m0, job, o, 0, Ask(VB, c2));
    PolledTwo(m0, job, o, 1);
    PollAsk(Polled(m0, job, o, 1), job, o, 1, VB, c2);
    PolledOne(m0, job, o, 3);
    PollCall(Polled(m0, job, o, 3), job, o, 3, Ask(WB, FAIL));
    PolledTwo(m0, job, o, 4);
    PollAsk(Polled(m0, job, o, 4), job, o, 4, WB, FAIL);
    PolledOne(m0, job, o, 6);
    PollFail(Polled(m0, job, o, 6), job, o, 6);
  }

  lemma SecondPass(m0: Machine, job: Job)
    requires job.start == WriteLater()
    requires var m := Polled(m0, job, Slow(), 7);
             && m.active && m.vm.rest == job.start && |m.vm.sent| == 2 && m.autoPowerOff && !m.rejoin
             && m.writes == [4] && m.events == [] && m.power
    ensures var m := Polled(m0, job, Slow(), 12);
            !m.active && m.writes == [4] && m.events == [PowerOff(11), Called(11, 1)]
  {
    hide Poll, Polled;
    var o, c2 := Slow(), Op(ITC1, Ask(WB, FAIL));
    PolledOne(m0, job, o, 7);
    PollBaseline(Polled(m0, job, o, 7), job, o, 7, Ask(VB, c2));
    PolledTwo(m0, job, o, 8);
    PollAsk(Polled(m0, job, o, 8), job, o, 8, VB, c2);
    PolledOne(m0, job, o, 10);
    PollCall(Polled(m0, job, o, 10), job, o, 10, Ask(WB, FAIL));
    PolledOne(m0, job, o, 11);
    PollCall(Polled(m0, job, o, 11), job, o, 11, Ask(WB, FAIL));
  }
}
