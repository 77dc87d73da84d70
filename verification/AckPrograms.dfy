/** The programming-track programs: what the command station sends to a decoder, and what it makes of
    the acknowledgements, to read and write configuration variables (CVs) and identities. */
module AckPrograms {

  /** A byte of a program: an operation, or the operand of the one before it. */
  datatype Cell =
    | BASELINE | W0 | W1 | WB | VB | V0 | V1 | WACK
    | ITC1 | ITC0 | ITCB | ITCBV | ITCB7 | NAKFAIL | CALLFAIL
    | BIV | STARTMERGE | MERGE | SETBIT | SETCV | SETBYTE | SETBYTEH | SETBYTEL
    | STASHLOCOID | COMBINELOCOID | ITSKIP | NAKSKIP | COMBINE1920 | BAD20SKIP
    | FAIL_IF_NONZERO_NAK | SKIPTARGET
    | Num(n: nat)

  /** A program from some position on. */
  datatype Code = End | Op(cell: Cell, rest: Code)

  function Length(c: Code): nat {
    if c == End then 0 else 1 + Length(c.rest)
  }

  /** The byte that skips look for, wherever it stands. */
  predicate IsTarget(c: Cell) {
    c == SKIPTARGET || c == Num(255)
  }

  datatype Position = Nowhere | At(code: Code)

  /** Where a skip continues. */
  function Target(c: Code): (p: Position)
    ensures p.At? ==> Length(p.code) < Length(c)
  {
    if c == End then Nowhere
    else if IsTarget(c.cell) then At(c.rest)
    else Target(c.rest)
  }

  /** Read and merge n bits. */
  function Read(n: nat, rest: Code): Code {
    if n == 0 then rest else Op(V0, Op(WACK, Op(MERGE, Read(n - 1, rest))))
  }

  function SetCv(cv: nat, rest: Code): Code {
    Op(SETCV, Op(Num(cv), rest))
  }

  function SetByte(value: nat, rest: Code): Code {
    Op(SETBYTE, Op(Num(value), rest))
  }

  function SetBit(bit: nat, rest: Code): Code {
    Op(SETBIT, Op(Num(bit), rest))
  }

  /** Send something and wait for the answer. */
  function Ask(cell: Cell, rest: Code): Code {
    Op(cell, Op(WACK, rest))
  }

  /** Read a whole CV and verify what was read. */
  function ReadAll(rest: Code): Code {
    Op(STARTMERGE, Read(8, Ask(VB, rest)))
  }

  /** Read the first bit of a CV, and give up if it reads neither as zero nor as one. */
  function ReadFirst(rest: Code): Code {
    Ask(V0, Op(MERGE, Op(ITSKIP, Excursion(rest))))
  }

  function Excursion(rest: Code): Code {
    SetBit(7, Ask(V1, Op(NAKFAIL, SetBit(6, Op(SKIPTARGET, rest)))))
  }

  function ReadCarefully(rest: Code): Code {
    Op(STARTMERGE, ReadFirst(Read(7, Ask(VB, rest))))
  }

  const FAIL: Code := Op(CALLFAIL, End)

  function WriteBitProg(on: bool): Code {
    Op(BASELINE, Ask(if on then W1 else W0, Ask(if on then V1 else V0, Op(ITC1, FAIL))))
  }

  function VerifyBitProg(on: bool): Code {
    if on then Op(BASELINE, Ask(V1, Op(ITC1, Ask(V0, Op(ITC0, FAIL)))))
    else Op(BASELINE, Ask(V0, Op(ITC0, Ask(V1, Op(ITC1, FAIL)))))
  }

  function ReadBitProg(): Code {
    Op(BASELINE, Ask(V1, Op(ITC1, Ask(V0, Op(ITC0, FAIL)))))
  }

  function WriteByteProg(): Code {
    Op(BASELINE, WriteLast())
  }

  /** Write the byte, or else verify it, and report. */
  function WriteLast(): Code {
    Ask(WB, Op(ITC1, Ask(VB, Op(ITC1, FAIL))))
  }

  function VerifyByteProg(): Code {
    Op(BASELINE, Op(BIV, Ask(VB, Op(ITCB, ReadCarefully(Op(ITCBV, FAIL))))))
  }

  function ReadCvProg(): Code {
    Op(BASELINE, ReadCarefully(Op(ITCB, FAIL)))
  }

  /** CV 29 bit 5 tells which of CV 1 and CVs 17 and 18 hold the address. */
  function ReadAddress(): Code {
    SetCv(29, SetBit(5, Ask(V0, Op(ITSKIP, ReadLong(Op(SKIPTARGET, ReadShort()))))))
  }

  function ReadLong(rest: Code): Code {
    SetCv(17, ReadAll(Op(NAKFAIL, Op(STASHLOCOID, SetCv(18, ReadAll(Op(NAKFAIL, Op(COMBINELOCOID, rest))))))))
  }

  function ReadShort(): Code {
    SetCv(1, Op(STARTMERGE, SetBit(6, Read(7, Ask(VB, Op(ITCB, FAIL))))))
  }

  /** If CV 20 is not zero, combine it with CV 19. */
  function ReadExtended(rest: Code): Code {
    SetCv(20, SetByte(0, Ask(VB, Op(ITSKIP, ReadAll(Op(NAKSKIP, Op(BAD20SKIP, ReadBoth(rest))))))))
  }

  /** CV 20 has been read: read CV 19 as well. */
  function ReadBoth(rest: Code): Code {
    Op(STASHLOCOID, SetCv(19, ReadAll(Op(NAKFAIL, Op(COMBINE1920, Op(SKIPTARGET, rest))))))
  }

  function DriveawayProg(): Code {
    Op(BASELINE, ReadExtended(SetCv(19, SetByte(0, Ask(VB, Op(ITSKIP, ReadConsist(Op(SKIPTARGET, ReadAddress()))))))))
  }

  /** CV 19 is not zero: read it, unless it is the direction alone. */
  function ReadConsist(rest: Code): Code {
    SetByte(128, Ask(VB, Op(ITSKIP, ReadAll(Op(ITCB7, rest)))))
  }

  function ReadIdProg(): Code {
    Op(BASELINE, ReadAddress())
  }

  function ReadConsistProg(): Code {
    Op(BASELINE, ReadExtended(
      SetCv(19, SetByte(0, Ask(VB, Op(ITC0, SetByte(128, Ask(VB, Op(ITC0,
        ReadAll(Op(ITCB7, FAIL)))))))))))
  }

  /** Take the decoder out of any consist. */
  function ClearConsist(rest: Code): Code {
    SetCv(20, SetByte(0, Ask(WB, SetCv(19, SetByte(0, Ask(WB, rest))))))
  }

  function ShortIdProg(): Code {
    Op(BASELINE, ClearConsist(SetCv(29, SetBit(5, Ask(W0, Ask(V0, Op(NAKFAIL,
      SetCv(1, Op(SETBYTEL, WriteLast())))))))))
  }

  function ConsistIdProg(): Code {
    Op(BASELINE, SetCv(20, Op(SETBYTEH, Ask(WB, Op(ITSKIP, Op(FAIL_IF_NONZERO_NAK, Op(SKIPTARGET,
      SetCv(19, Op(SETBYTEL, WriteLast())))))))))
  }

  function LongIdProg(): Code {
    Op(BASELINE, ClearConsist(SetCv(29, SetBit(5, Ask(W1, Ask(V1, Op(NAKFAIL,
      SetCv(17, Op(SETBYTEH, WriteEither(
        SetCv(18, Op(SETBYTEL, WriteLast()))))))))))))
  }

  /** Write the byte, or else verify it, and go on. */
  function WriteEither(rest: Code): Code {
    Ask(WB, Op(ITSKIP, Ask(VB, Op(ITSKIP, Op(CALLFAIL, Op(SKIPTARGET, rest))))))
  }
}
