/** All the programs of the command station fit, so EveryJobEnds holds of them; and the two that read
    a byte report only confirmed values. */
module AckLibrary {
  import opened AckPrograms
  import opened AckMachine

  // ---------------------------------------------------------------- kinds of operations

  /** Operations after which only the next one can follow, and that send no bit packet. */
  predicate Ordinary(c: Cell) {
    !c.Num? && !SendsBit(c) && !Skips(c) && !Sets(c)
  }

  /** Operations that neither call back nor skip nor take an operand. */
  predicate Silent(c: Cell) {
    !Calls(c) && !Skips(c) && !Sets(c)
  }

  // ---------------------------------------------------------------- parts of programs

  lemma TargetPast(c: Cell, rest: Code)
    ensures Target(Op(c, rest)) == if IsTarget(c) then At(rest) else Target(rest)
  {
  }

  lemma {:induction false} TargetRead(n: nat, rest: Code)
    ensures Target(Read(n, rest)) == Target(rest)
  {
    hide Target, Length;
    if n > 0 {
      TargetRead(n - 1, rest);
      var c := Read(n - 1, rest);
      TargetPast(MERGE, c);
      TargetPast(WACK, Op(MERGE, c));
      TargetPast(V0, Op(WACK, Op(MERGE, c)));
    }
  }

  lemma TargetAsk(cell: Cell, rest: Code)
    requires !IsTarget(cell)
    ensures Target(Ask(cell, rest)) == Target(rest)
  {
    hide Target, Length;
    TargetPast(WACK, rest);
    TargetPast(cell, Op(WACK, rest));
  }

  lemma TargetSet(cell: Cell, n: nat, rest: Code)
    requires !IsTarget(cell) && n < 255
    ensures Target(Op(cell, Op(Num(n), rest))) == Target(rest)
  {
    hide Target, Length;
    TargetPast(Num(n), rest);
    TargetPast(cell, Op(Num(n), rest));
  }

  lemma TargetReadAll(rest: Code)
    ensures Target(ReadAll(rest)) == Target(rest)
  {
    hide Target, Length, Read;
    TargetAsk(VB, rest);
    TargetRead(8, Ask(VB, rest));
    TargetPast(STARTMERGE, Read(8, Ask(VB, rest)));
  }

  lemma {:induction false} FitAny(c: Code, k: Known)
    requires Fit(c, Any)
    ensures Fit(c, k)
    decreases Length(c)
  {
    hide SendsBit, AlwaysCalls;
    if AlwaysCalls(c.cell) {
    } else if Skips(c.cell) {
      FitAny(c.rest, k);
      FitAny(Target(c.rest).code, k);
    } else if Sets(c.cell) {
      if c.cell != SETBIT {
        assert Length(c.rest) == 1 + Length(c.rest.rest);
        FitAny(c.rest.rest, k);
      }
    } else if c.cell != STARTMERGE {
      FitAny(c.rest, After(c, k));
    }
  }

  lemma FitAsk(cell: Cell, rest: Code, k: Known)
    requires Sends(cell) && (SendsBit(cell) ==> k.Exactly? && k.bit < 8) && Fit(rest, k)
    ensures Fit(Ask(cell, rest), k)
  {
    assert Fit(Op(WACK, rest), k);
  }

  lemma FitPlain(cell: Cell, rest: Code, k: Known)
    requires Ordinary(cell)
    requires Fit(rest, After(Op(cell, rest), k))
    ensures Fit(Op(cell, rest), k)
  {
  }

  lemma FitEnds(cell: Cell, rest: Code, k: Known)
    requires AlwaysCalls(cell)
    ensures Fit(Op(cell, rest), k)
  {
  }

  lemma FitSkip(cell: Cell, rest: Code, t: Code, k: Known)
    requires Skips(cell) && Fit(rest, k) && Target(rest) == At(t) && Fit(t, k)
    ensures Fit(Op(cell, rest), k)
  {
  }

  lemma FitSet(cell: Cell, n: nat, rest: Code, k: Known)
    requires Sets(cell) && n < 256 && Fit(rest, if cell == SETBIT then Exactly(n) else k)
    ensures Fit(Op(cell, Op(Num(n), rest)), k)
  {
  }

  lemma MergeCounts(c: Code, n: nat)
    requires 1 <= n <= 8
    ensures After(Op(MERGE, c), Exactly(n - 1)) == Exactly(if n == 1 then 255 else n - 2)
  {
  }

  lemma {:induction false} FitRead(n: nat, rest: Code)
    requires 1 <= n <= 8 && Fit(rest, Exactly(255))
    ensures Fit(Read(n, rest), Exactly(n - 1))
    decreases n
  {
    hide Fit, Length, After;
    var c := Read(n - 1, rest);
    if n > 1 {
      FitRead(n - 1, rest);
    }
    MergeCounts(c, n);
    FitPlain(MERGE, c, Exactly(n - 1));
    FitAsk(V0, Op(MERGE, c), Exactly(n - 1));
  }

  lemma FitReadAll(rest: Code, k: Known)
    requires Fit(rest, Exactly(255))
    ensures Fit(ReadAll(rest), k)
  {
    hide Fit, Length, Read;
    FitAsk(VB, rest, Exactly(255));
    FitRead(8, Ask(VB, rest));
    FitPlain(STARTMERGE, Read(8, Ask(VB, rest)), k);
  }

  lemma FitExcursion(rest: Code)
    requires Fit(rest, Exactly(6))
    ensures Fit(Excursion(rest), Exactly(6)) && Target(Excursion(rest)) == At(rest)
  {
    hide Fit, Target, Length;
    var c1 := Op(SKIPTARGET, rest);
    FitPlain(SKIPTARGET, rest, Exactly(6));
    TargetPast(SKIPTARGET, rest);
    var c2 := SetBit(6, c1);
    FitSet(SETBIT, 6, c1, Exactly(7));
    TargetSet(SETBIT, 6, c1);
    var c3 := Op(NAKFAIL, c2);
    FitPlain(NAKFAIL, c2, Exactly(7));
    TargetPast(NAKFAIL, c2);
    FitAsk(V1, c3, Exactly(7));
    TargetAsk(V1, c3);
    FitSet(SETBIT, 7, Ask(V1, c3), Exactly(6));
    TargetSet(SETBIT, 7, Ask(V1, c3));
  }

  lemma FitReadCarefully(rest: Code, k: Known)
    requires Fit(rest, Exactly(255))
    ensures Fit(ReadCarefully(rest), k)
  {
    hide Fit, Target, Length, Read, Excursion;
    var c7 := Read(7, Ask(VB, rest));
    FitAsk(VB, rest, Exactly(255));
    FitRead(7, Ask(VB, rest));
    FitExcursion(c7);
    FitSkip(ITSKIP, Excursion(c7), c7, Exactly(6));
    FitPlain(MERGE, Op(ITSKIP, Excursion(c7)), Exactly(7));
    FitAsk(V0, Op(MERGE, Op(ITSKIP, Excursion(c7))), Exactly(7));
    FitPlain(STARTMERGE, ReadFirst(c7), k);
  }

  // ---------------------------------------------------------------- whole programs

  lemma FitWriteLast(k: Known)
    ensures Fit(WriteLast(), k)
  {
    hide Fit, Length;
    FitEnds(CALLFAIL, End, k);
    FitPlain(ITC1, FAIL, k);
    FitAsk(VB, Op(ITC1, FAIL), k);
    FitPlain(ITC1, Ask(VB, Op(ITC1, FAIL)), k);
    FitAsk(WB, Op(ITC1, Ask(VB, Op(ITC1, FAIL))), k);
  }

  lemma FitReadShort(k: Known)
    ensures Fit(ReadShort(), k)
  {
    hide Fit, Length, Read;
    FitEnds(CALLFAIL, End, Exactly(255));
    FitPlain(ITCB, FAIL, Exactly(255));
    FitAsk(VB, Op(ITCB, FAIL), Exactly(255));
    var c := Read(7, Ask(VB, Op(ITCB, FAIL)));
    FitRead(7, Ask(VB, Op(ITCB, FAIL)));
    FitSet(SETBIT, 6, c, Exactly(7));
    FitPlain(STARTMERGE, SetBit(6, c), k);
    FitSet(SETCV, 1, Op(STARTMERGE, SetBit(6, c)), k);
  }

  lemma FitReadLong(rest: Code, k: Known)
    ensures Fit(ReadLong(rest), k)
    ensures Target(ReadLong(rest)) == Target(rest)
  {
    hide Fit, Target, Length, ReadAll, Read;
    var c1 := Op(NAKFAIL, Op(COMBINELOCOID, rest));
    FitEnds(COMBINELOCOID, rest, Exactly(255));
    FitPlain(NAKFAIL, Op(COMBINELOCOID, rest), Exactly(255));
    FitReadAll(c1, Exactly(255));
    FitSet(SETCV, 18, ReadAll(c1), Exactly(255));
    var c2 := Op(STASHLOCOID, SetCv(18, ReadAll(c1)));
    FitPlain(STASHLOCOID, SetCv(18, ReadAll(c1)), Exactly(255));
    FitPlain(NAKFAIL, c2, Exactly(255));
    FitReadAll(Op(NAKFAIL, c2), k);
    FitSet(SETCV, 17, ReadAll(Op(NAKFAIL, c2)), k);
    TargetPast(COMBINELOCOID, rest);
    TargetPast(NAKFAIL, Op(COMBINELOCOID, rest));
    TargetReadAll(c1);
    TargetSet(SETCV, 18, ReadAll(c1));
    TargetPast(STASHLOCOID, SetCv(18, ReadAll(c1)));
    TargetPast(NAKFAIL, c2);
    TargetReadAll(Op(NAKFAIL, c2));
    TargetSet(SETCV, 17, ReadAll(Op(NAKFAIL, c2)));
  }

  lemma FitReadAddress(k: Known)
    ensures Fit(ReadAddress(), k)
  {
    hide Fit, Target, Length, ReadAll, Read, ReadLong, ReadShort;
    var c1 := Op(SKIPTARGET, ReadShort());
    FitReadShort(Exactly(5));
    FitReadLong(c1, Exactly(5));
    TargetPast(SKIPTARGET, ReadShort());
    FitSkip(ITSKIP, ReadLong(c1), ReadShort(), Exactly(5));
    FitAsk(V0, Op(ITSKIP, ReadLong(c1)), Exactly(5));
    var c2 := Ask(V0, Op(ITSKIP, ReadLong(c1)));
    FitSet(SETBIT, 5, c2, k);
    FitSet(SETCV, 29, SetBit(5, c2), k);
  }

  lemma FitReadBoth(rest: Code)
    ensures Fit(ReadBoth(rest), Exactly(255)) && Target(ReadBoth(rest)) == At(rest)
  {
    hide Fit, Target, Length, ReadAll, Read;
    var c1 := Op(COMBINE1920, Op(SKIPTARGET, rest));
    var c2 := Op(NAKFAIL, c1);
    FitEnds(COMBINE1920, Op(SKIPTARGET, rest), Exactly(255));
    FitPlain(NAKFAIL, c1, Exactly(255));
    FitReadAll(c2, Exactly(255));
    FitSet(SETCV, 19, ReadAll(c2), Exactly(255));
    FitPlain(STASHLOCOID, SetCv(19, ReadAll(c2)), Exactly(255));
    TargetPast(SKIPTARGET, rest);
    TargetPast(COMBINE1920, Op(SKIPTARGET, rest));
    TargetPast(NAKFAIL, c1);
    TargetReadAll(c2);
    TargetSet(SETCV, 19, ReadAll(c2));
    TargetPast(STASHLOCOID, SetCv(19, ReadAll(c2)));
  }

  lemma FitReadExtended(rest: Code, k: Known)
    requires Fit(rest, Any)
    ensures Fit(ReadExtended(rest), k)
  {
    FitAny(rest, k);
    FitAny(rest, Exactly(255));
    hide Fit, Target, Length, ReadAll, Read, ReadBoth;
    FitReadBoth(rest);
    var c4 := ReadBoth(rest);
    FitSkip(BAD20SKIP, c4, rest, Exactly(255));
    TargetPast(BAD20SKIP, c4);
    FitSkip(NAKSKIP, Op(BAD20SKIP, c4), rest, Exactly(255));
    TargetPast(NAKSKIP, Op(BAD20SKIP, c4));
    FitReadAll(Op(NAKSKIP, Op(BAD20SKIP, c4)), k);
    TargetReadAll(Op(NAKSKIP, Op(BAD20SKIP, c4)));
    FitAskZero(20, ReadAll(Op(NAKSKIP, Op(BAD20SKIP, c4))), rest, k);
  }

  /** Ask whether a CV is zero, and skip if it is. */
  lemma FitAskZero(cv: nat, c: Code, t: Code, k: Known)
    requires cv < 256 && Fit(c, k) && Target(c) == At(t) && Fit(t, k)
    ensures Fit(SetCv(cv, SetByte(0, Ask(VB, Op(ITSKIP, c)))), k)
  {
    hide Fit, Target, Length;
    FitSkip(ITSKIP, c, t, k);
    FitAsk(VB, Op(ITSKIP, c), k);
    FitSet(SETBYTE, 0, Ask(VB, Op(ITSKIP, c)), k);
    FitSet(SETCV, cv, SetByte(0, Ask(VB, Op(ITSKIP, c))), k);
  }

  lemma FitReadConsist(rest: Code)
    requires Fit(rest, Any)
    ensures Fit(ReadConsist(Op(SKIPTARGET, rest)), Any) && Target(ReadConsist(Op(SKIPTARGET, rest))) == At(rest)
  {
    hide Fit, Target, Length, ReadAll, Read;
    var t := Op(SKIPTARGET, rest);
    FitAny(rest, Exactly(255));
    FitPlain(SKIPTARGET, rest, Exactly(255));
    FitPlain(ITCB7, t, Exactly(255));
    var c := ReadAll(Op(ITCB7, t));
    FitReadAll(Op(ITCB7, t), Any);
    TargetPast(SKIPTARGET, rest);
    TargetPast(ITCB7, t);
    TargetReadAll(Op(ITCB7, t));
    FitSkip(ITSKIP, c, rest, Any);
    TargetPast(ITSKIP, c);
    FitAsk(VB, Op(ITSKIP, c), Any);
    TargetAsk(VB, Op(ITSKIP, c));
    FitSet(SETBYTE, 128, Ask(VB, Op(ITSKIP, c)), Any);
    TargetSet(SETBYTE, 128, Ask(VB, Op(ITSKIP, c)));
  }

  lemma FitDriveaway()
    ensures Fit(DriveawayProg(), Any)
  {
    hide Fit, Target, Length, ReadAll, Read, ReadAddress, ReadConsist, ReadExtended;
    FitReadAddress(Any);
    FitReadConsist(ReadAddress());
    var c := ReadConsist(Op(SKIPTARGET, ReadAddress()));
    FitAskZero(19, c, ReadAddress(), Any);
    var d := SetCv(19, SetByte(0, Ask(VB, Op(ITSKIP, c))));
    FitReadExtended(d, Any);
    FitPlain(BASELINE, ReadExtended(d), Any);
  }

  lemma FitReadConsistProg()
    ensures Fit(ReadConsistProg(), Any)
  {
    hide Fit, Length, ReadAll, Read, ReadExtended;
    FitEnds(CALLFAIL, End, Exactly(255));
    FitPlain(ITCB7, FAIL, Exactly(255));
    FitReadAll(Op(ITCB7, FAIL), Any);
    var c := ReadAll(Op(ITCB7, FAIL));
    FitPlain(ITC0, c, Any);
    FitAsk(VB, Op(ITC0, c), Any);
    var d := SetByte(128, Ask(VB, Op(ITC0, c)));
    FitSet(SETBYTE, 128, Ask(VB, Op(ITC0, c)), Any);
    FitPlain(ITC0, d, Any);
    FitAsk(VB, Op(ITC0, d), Any);
    FitSet(SETBYTE, 0, Ask(VB, Op(ITC0, d)), Any);
    var e := SetCv(19, SetByte(0, Ask(VB, Op(ITC0, d))));
    FitSet(SETCV, 19, SetByte(0, Ask(VB, Op(ITC0, d))), Any);
    FitReadExtended(e, Any);
    FitPlain(BASELINE, ReadExtended(e), Any);
  }

  lemma FitClearConsist(rest: Code)
    requires Fit(rest, Any)
    ensures Fit(ClearConsist(rest), Any)
  {
    hide Fit, Length;
    FitAsk(WB, rest, Any);
    FitSet(SETBYTE, 0, Ask(WB, rest), Any);
    FitSet(SETCV, 19, SetByte(0, Ask(WB, rest)), Any);
    var c := SetCv(19, SetByte(0, Ask(WB, rest)));
    FitAsk(WB, c, Any);
    FitSet(SETBYTE, 0, Ask(WB, c), Any);
    FitSet(SETCV, 20, SetByte(0, Ask(WB, c)), Any);
  }

  /** Set or clear the long address flag, then go on. */
  lemma FitFlag(w: Cell, v: Cell, rest: Code)
    requires SendsBit(w) && SendsBit(v) && Fit(rest, Exactly(5))
    ensures Fit(Op(BASELINE, ClearConsist(SetCv(29, SetBit(5, Ask(w, Ask(v, Op(NAKFAIL, rest))))))), Any)
  {
    hide Fit, Length, ClearConsist;
    FitPlain(NAKFAIL, rest, Exactly(5));
    FitAsk(v, Op(NAKFAIL, rest), Exactly(5));
    FitAsk(w, Ask(v, Op(NAKFAIL, rest)), Exactly(5));
    var c := Ask(w, Ask(v, Op(NAKFAIL, rest)));
    FitSet(SETBIT, 5, c, Any);
    FitSet(SETCV, 29, SetBit(5, c), Any);
    FitClearConsist(SetCv(29, SetBit(5, c)));
    FitPlain(BASELINE, ClearConsist(SetCv(29, SetBit(5, c))), Any);
  }

  /** Write the low byte of the word and report. */
  lemma FitStoreLow(cv: nat, k: Known)
    requires cv < 256
    ensures Fit(SetCv(cv, Op(SETBYTEL, WriteLast())), k)
  {
    hide Fit, Length, WriteLast;
    FitWriteLast(k);
    FitPlain(SETBYTEL, WriteLast(), k);
    FitSet(SETCV, cv, Op(SETBYTEL, WriteLast()), k);
  }

  lemma FitShortId()
    ensures Fit(ShortIdProg(), Any)
  {
    hide Fit, Length, WriteLast;
    FitStoreLow(1, Exactly(5));
    FitFlag(W0, V0, SetCv(1, Op(SETBYTEL, WriteLast())));
  }

  lemma FitWriteEither(c: Code, k: Known)
    requires Fit(c, k)
    ensures Fit(WriteEither(c), k)
  {
    hide Fit, Target, Length;
    var d := Op(CALLFAIL, Op(SKIPTARGET, c));
    FitEnds(CALLFAIL, Op(SKIPTARGET, c), k);
    TargetPast(SKIPTARGET, c);
    TargetPast(CALLFAIL, Op(SKIPTARGET, c));
    FitSkip(ITSKIP, d, c, k);
    TargetPast(ITSKIP, d);
    FitAsk(VB, Op(ITSKIP, d), k);
    TargetAsk(VB, Op(ITSKIP, d));
    FitSkip(ITSKIP, Ask(VB, Op(ITSKIP, d)), c, k);
    FitAsk(WB, Op(ITSKIP, Ask(VB, Op(ITSKIP, d))), k);
  }

  lemma FitLongId()
    ensures Fit(LongIdProg(), Any)
  {
    hide Fit, Length, WriteLast, WriteEither;
    var k := Exactly(5);
    var c := SetCv(18, Op(SETBYTEL, WriteLast()));
    FitStoreLow(18, k);
    FitWriteEither(c, k);
    FitPlain(SETBYTEH, WriteEither(c), k);
    FitSet(SETCV, 17, Op(SETBYTEH, WriteEither(c)), k);
    FitFlag(W1, V1, SetCv(17, Op(SETBYTEH, WriteEither(c))));
  }

  lemma FitConsistId()
    ensures Fit(ConsistIdProg(), Any)
  {
    hide Fit, Target, Length, WriteLast;
    var c := SetCv(19, Op(SETBYTEL, WriteLast()));
    FitStoreLow(19, Any);
    FitPlain(SKIPTARGET, c, Any);
    TargetPast(SKIPTARGET, c);
    var d := Op(FAIL_IF_NONZERO_NAK, Op(SKIPTARGET, c));
    FitPlain(FAIL_IF_NONZERO_NAK, Op(SKIPTARGET, c), Any);
    TargetPast(FAIL_IF_NONZERO_NAK, Op(SKIPTARGET, c));
    FitSkip(ITSKIP, d, c, Any);
    FitAsk(WB, Op(ITSKIP, d), Any);
    FitPlain(SETBYTEH, Ask(WB, Op(ITSKIP, d)), Any);
    FitSet(SETCV, 20, Op(SETBYTEH, Ask(WB, Op(ITSKIP, d))), Any);
    FitPlain(BASELINE, SetCv(20, Op(SETBYTEH, Ask(WB, Op(ITSKIP, d)))), Any);
  }

  lemma FitBytePrograms()
    ensures Fit(WriteByteProg(), Any) && Fit(VerifyByteProg(), Any) && Fit(ReadCvProg(), Any) && Fit(ReadIdProg(), Any)
  {
    hide Fit, Length, ReadAll, Read, ReadCarefully, ReadAddress, WriteLast;
    FitWriteLast(Any);
    FitPlain(BASELINE, WriteLast(), Any);
    FitReadAddress(Any);
    FitPlain(BASELINE, ReadAddress(), Any);
    FitEnds(CALLFAIL, End, Exactly(255));
    FitPlain(ITCB, FAIL, Exactly(255));
    FitReadCarefully(Op(ITCB, FAIL), Any);
    FitPlain(BASELINE, ReadCarefully(Op(ITCB, FAIL)), Any);
    FitPlain(ITCBV, FAIL, Exactly(255));
    var c := ReadCarefully(Op(ITCBV, FAIL));
    FitReadCarefully(Op(ITCBV, FAIL), Any);
    FitPlain(ITCB, c, Any);
    FitAsk(VB, Op(ITCB, c), Any);
    FitPlain(BIV, Ask(VB, Op(ITCB, c)), Any);
    FitPlain(BASELINE, Op(BIV, Ask(VB, Op(ITCB, c))), Any);
  }

  /** Programs that test or write one bit keep the bit number they are given. */
  lemma FitTwoAsks(w: Cell, call: Cell, v: Cell, last: Cell, b: nat)
    requires SendsBit(w) && SendsBit(v) && b < 8
    requires (call == ITC0 || call == ITC1) && (last == ITC0 || last == ITC1)
    ensures var p := Op(BASELINE, Ask(w, Op(call, Ask(v, Op(last, FAIL)))));
            Fit(p, Exactly(b)) && Steady(p)
  {
    var k := Exactly(b);
    var rest := Ask(v, Op(last, FAIL));
    assert Steady(FAIL) && Steady(Op(last, FAIL)) && Steady(rest);
    assert Steady(Op(call, rest)) && Steady(Ask(w, Op(call, rest))) && Steady(Op(BASELINE, Ask(w, Op(call, rest))));
    hide Fit, Steady, Length;
    FitEnds(CALLFAIL, End, k);
    FitPlain(last, FAIL, k);
    FitAsk(v, Op(last, FAIL), k);
    FitPlain(call, rest, k);
    FitAsk(w, Op(call, rest), k);
    FitPlain(BASELINE, Ask(w, Op(call, rest)), k);
  }

  lemma FitWriteBit(on: bool, b: nat)
    requires b < 8
    ensures Fit(WriteBitProg(on), Exactly(b)) && Steady(WriteBitProg(on))
  {
    var k := Exactly(b);
    var w, v := if on then W1 else W0, if on then V1 else V0;
    var rest := Ask(v, Op(ITC1, FAIL));
    assert Steady(FAIL) && Steady(Op(ITC1, FAIL)) && Steady(rest);
    assert Steady(Ask(w, rest)) && Steady(Op(BASELINE, Ask(w, rest)));
    hide Fit, Steady, Length;
    FitEnds(CALLFAIL, End, k);
    FitPlain(ITC1, FAIL, k);
    FitAsk(v, Op(ITC1, FAIL), k);
    FitAsk(w, rest, k);
    FitPlain(BASELINE, Ask(w, rest), k);
  }

  lemma FitBitPrograms(on: bool, b: nat)
    requires b < 8
    ensures forall p :: p == WriteBitProg(on) || p == VerifyBitProg(on) || p == ReadBitProg() ==> Fit(p, Exactly(b)) && Steady(p)
  {
    hide Fit, Steady;
    FitWriteBit(on, b);
    FitTwoAsks(V1, ITC1, V0, ITC0, b);
    FitTwoAsks(V0, ITC0, V1, ITC1, b);
  }

  // ---------------------------------------------------------------- requests

  /** What callers ask of the programming track.  `h` is the highest short address. */
  datatype Request =
    | WriteCvByte(cv: int, value: nat)
    | VerifyCvByte(cv: int, value: nat)
    | WriteCvBit(cv: int, bit: nat, on: bool)
    | VerifyCvBit(cv: int, bit: nat, on: bool)
    | ReadCvBit(cv: int, bit: nat)
    | ReadCv(cv: int)
    | GetDriveawayLocoId
    | GetLocoId
    | GetConsistId
    | SetLocoId(id: int, h: nat)
    | SetConsistId(id: int, reverse: bool, h: nat)

  datatype Answer = Refused | Started(job: Job)

  /** CV 19 and CV 20 of a consist, as one word. */
  function ConsistWord(id: nat, reverse: bool, h: nat): nat {
    var cv19 := if id <= h then id else id % 100;
    var cv20 := if id <= h then 0 else id / 100;
    cv20 * 256 + cv19 + (if reverse then 128 else 0)
  }

  function Accept(r: Request): Answer {
    match r
    case WriteCvByte(cv, value) => Started(Job(WriteByteProg(), cv, value, 0))
    case VerifyCvByte(cv, value) => Started(Job(VerifyByteProg(), cv, value, 0))
    case WriteCvBit(cv, bit, on) => if bit >= 8 then Refused else Started(Job(WriteBitProg(on), cv, bit, 0))
    case VerifyCvBit(cv, bit, on) => if bit >= 8 then Refused else Started(Job(VerifyBitProg(on), cv, bit, 0))
    case ReadCvBit(cv, bit) => if bit >= 8 then Refused else Started(Job(ReadBitProg(), cv, bit, 0))
    case ReadCv(cv) => Started(Job(ReadCvProg(), cv, 0, 0))
    case GetDriveawayLocoId => Started(Job(DriveawayProg(), 0, 0, 0))
    case GetLocoId => Started(Job(ReadIdProg(), 0, 0, 0))
    case GetConsistId => Started(Job(ReadConsistProg(), 0, 0, 0))
    case SetLocoId(id, h) =>
      if id < 1 || id > 10239 then Refused
      else if id <= h then Started(Job(ShortIdProg(), 0, 0, id))
      else Started(Job(LongIdProg(), 0, 0, id + 0xC000))
    case SetConsistId(id, reverse, h) =>
      if id < 0 || id > 10239 then Refused
      else Started(Job(ConsistIdProg(), 0, 0, ConsistWord(id, reverse, h)))
  }

  /** Byte arguments are bytes. */
  predicate RequestOk(r: Request) {
    && (r.WriteCvByte? ==> r.value < 256) && (r.VerifyCvByte? ==> r.value < 256)
  }

  lemma RequestsFit(r: Request)
    requires RequestOk(r) && Accept(r).Started?
    ensures JobOk(Accept(r).job)
  {
    FitBytePrograms();
    FitDriveaway();
    FitReadConsistProg();
    FitShortId();
    FitLongId();
    FitConsistId();
    match r {
      case WriteCvBit(cv, bit, on) => FitBitPrograms(on, bit);
      case VerifyCvBit(cv, bit, on) => FitBitPrograms(on, bit);
      case ReadCvBit(cv, bit) => FitBitPrograms(true, bit);
      case _ =>
    }
    hide Fit, Steady, WriteBitProg, VerifyBitProg, ReadBitProg, WriteByteProg, VerifyByteProg, ReadCvProg;
    hide DriveawayProg, ReadIdProg, ReadConsistProg, ShortIdProg, LongIdProg, ConsistIdProg;
  }

  /** Every request ends, against every decoder: in at most retries + 1 passes, inside its program,
      with bit numbers from 0 to 7 only. */
  lemma EveryRequestEnds(r: Request, ack: bool, stash: nat, retries: nat, oracle: Oracle)
    requires RequestOk(r) && Accept(r).Started?
    ensures var job := Accept(r).job;
            var vm := Begin(job, ack, stash, retries);
            var result := Execute(vm, job, oracle);
            result.Done? && SentOk(result.vm.sent) && Passes(vm, job, oracle) <= retries + 1
  {
    RequestsFit(r);
    EveryJobEnds(Accept(r).job, ack, stash, retries, oracle);
    hide Execute, Passes, Accept, JobOk;
  }

  // ---------------------------------------------------------------- confirmed values

  lemma ConfirmPlain(cell: Cell, rest: Code, st: Stage)
    requires Silent(cell) && Confirming(rest, NextStage(cell, st))
    ensures Confirming(Op(cell, rest), st)
  {
  }

  lemma ConfirmCall(cell: Cell, rest: Code, st: Stage)
    requires Failing(cell) || ((cell == ITCB || cell == ITCBV) && st == Answered)
    requires Confirming(rest, Unasked)
    ensures Confirming(Op(cell, rest), st)
  {
  }

  lemma ConfirmSet(cell: Cell, n: nat, rest: Code, st: Stage)
    requires (cell == SETBIT || cell == SETBYTE) && Confirming(rest, Unasked)
    ensures Confirming(Op(cell, Op(Num(n), rest)), st)
  {
  }

  lemma ConfirmSkip(cell: Cell, rest: Code, t: Code, st: Stage)
    requires Skips(cell) && Confirming(rest, Unasked) && Target(rest) == At(t) && Confirming(t, Unasked)
    ensures Confirming(Op(cell, rest), st)
  {
  }

  lemma ConfirmAsk(cell: Cell, rest: Code, st: Stage)
    requires Sends(cell) && Confirming(rest, if cell == VB then Answered else Unasked)
    ensures Confirming(Ask(cell, rest), st)
  {
    hide Confirming, Length;
    var st' := if cell == VB then Asked else Unasked;
    assert NextStage(cell, st) == st' && Silent(cell) && Silent(WACK);
    hide Sends, Silent;
    ConfirmPlain(WACK, rest, st');
    ConfirmPlain(cell, Op(WACK, rest), st);
  }

  lemma {:induction false} ConfirmRead(n: nat, rest: Code, st: Stage)
    requires Confirming(rest, Unasked) && (n == 0 ==> st == Unasked)
    ensures Confirming(Read(n, rest), st)
    decreases n
  {
    if n > 0 {
      hide Confirming;
      ConfirmRead(n - 1, rest, Unasked);
      ConfirmPlain(MERGE, Read(n - 1, rest), Unasked);
      ConfirmAsk(V0, Op(MERGE, Read(n - 1, rest)), st);
    }
  }

  lemma ConfirmExcursion(rest: Code)
    requires Confirming(rest, Unasked)
    ensures Confirming(Excursion(rest), Unasked) && Target(Excursion(rest)) == At(rest)
  {
    hide Confirming, Target, Length;
    var c1 := Op(SKIPTARGET, rest);
    ConfirmPlain(SKIPTARGET, rest, Unasked);
    TargetPast(SKIPTARGET, rest);
    var c2 := SetBit(6, c1);
    ConfirmSet(SETBIT, 6, c1, Unasked);
    TargetSet(SETBIT, 6, c1);
    var c3 := Op(NAKFAIL, c2);
    ConfirmCall(NAKFAIL, c2, Unasked);
    TargetPast(NAKFAIL, c2);
    ConfirmAsk(V1, c3, Unasked);
    TargetAsk(V1, c3);
    ConfirmSet(SETBIT, 7, Ask(V1, c3), Unasked);
    TargetSet(SETBIT, 7, Ask(V1, c3));
  }

  lemma ConfirmReadCarefully(rest: Code, st: Stage)
    requires Confirming(rest, Answered)
    ensures Confirming(ReadCarefully(rest), st)
  {
    hide Confirming, Target, Length, Read, Excursion;
    ConfirmAsk(VB, rest, Unasked);
    var c7 := Read(7, Ask(VB, rest));
    ConfirmRead(7, Ask(VB, rest), Unasked);
    ConfirmExcursion(c7);
    ConfirmSkip(ITSKIP, Excursion(c7), c7, Unasked);
    ConfirmPlain(MERGE, Op(ITSKIP, Excursion(c7)), Unasked);
    ConfirmAsk(V0, Op(MERGE, Op(ITSKIP, Excursion(c7))), Unasked);
    ConfirmPlain(STARTMERGE, ReadFirst(c7), st);
  }

  lemma ReadersConfirm()
    ensures Confirming(ReadCvProg(), Unasked) && Confirming(VerifyByteProg(), Unasked)
  {
    hide Confirming, Length, ReadAll, Read, ReadCarefully;
    var last := Answered;
    assert Confirming(End, Unasked) by {
      EndConfirms();
    }
    ConfirmCall(CALLFAIL, End, Unasked);
    ConfirmCall(ITCB, FAIL, last);
    ConfirmReadCarefully(Op(ITCB, FAIL), Unasked);
    ConfirmPlain(BASELINE, ReadCarefully(Op(ITCB, FAIL)), Unasked);
    ConfirmCall(ITCBV, FAIL, last);
    var c := ReadCarefully(Op(ITCBV, FAIL));
    ConfirmReadCarefully(Op(ITCBV, FAIL), Unasked);
    ConfirmCall(ITCB, c, last);
    ConfirmAsk(VB, Op(ITCB, c), Unasked);
    ConfirmPlain(BIV, Ask(VB, Op(ITCB, c)), Unasked);
    ConfirmPlain(BASELINE, Op(BIV, Ask(VB, Op(ITCB, c))), Unasked);
  }

  lemma EndConfirms()
    ensures Confirming(End, Unasked)
  {
  }

  /** A CV value that readCV or verifyCVByte returns, over any decoder and any noise, was acknowledged
      by a verify-byte packet with that value for that CV, the last one sent and in the final pass. */
  lemma ReadValuesAreConfirmed(r: Request, ack: bool, stash: nat, retries: nat, oracle: Oracle)
    requires RequestOk(r) && (r.ReadCv? || r.VerifyCvByte?)
    ensures var job := Accept(r).job;
            var result := Execute(Begin(job, ack, stash, retries), job, oracle);
            && result.Done?
            && (result.value != -1 ==>
                  && result.value >= 0 && |result.vm.sent| > result.vm.passStart
                  && result.vm.sent[|result.vm.sent| - 1] == VerifyByte(r.cv, result.value)
                  && oracle(result.vm.sent))
  {
    hide Confirming, Execute, ReadCvProg, VerifyByteProg, Passes, Length;
    ReadersConfirm();
    EveryRequestEnds(r, ack, stash, retries, oracle);
    var job := Accept(r).job;
    ReturnedMeansVerified(Begin(job, ack, stash, retries), job, oracle, Unasked);
  }
}
