/** CV bytes and bits written to an ideal decoder and read back. */
module AckCvs {
  import opened AckPrograms
  import opened AckMachine
  import opened AckLibrary
  import opened AckIdeal
  import opened AckIdentities

  // ---------------------------------------------------------------- reading a CV

  /** A first bit that does not read as zero is read as one, and reading goes on. */
  lemma Excusing(vm: Vm, rest: Code, job: Job, d: Decoder) returns (r: Vm)
    requires vm.rest == Excursion(rest) && BitOf(Get(Mem(d, vm), vm.cv), 7)
    ensures r == vm.(rest := rest, bit := 6, ack := true, sent := r.sent) && Moves(vm, r, job, d)
  {
    hide Execute, Mem, Get, BitOf, Length, Ideal;
    var c1 := Op(SKIPTARGET, rest);
    var c2 := Op(NAKFAIL, SetBit(6, c1));
    var vm1 := Pointing(vm, 7, Ask(V1, c2), job, d);
    var vm2 := Testing(vm1, true, c2, job, d);
    var vm3 := Ignoring(vm2, NAKFAIL, SetBit(6, c1), job, d);
    var vm4 := Pointing(vm3, 6, c1, job, d);
    r := Going(vm4, SKIPTARGET, rest, job, d);
  }

  /** Reading a CV with the check of its first bit. */
  lemma ReadingCarefully(vm: Vm, rest: Code, job: Job, d: Decoder) returns (r: Vm)
    requires vm.rest == ReadCarefully(rest) && Get(Mem(d, vm), vm.cv) < 256
    ensures r == vm.(rest := rest, byte := Get(Mem(d, vm), vm.cv), bit := r.bit, ack := true, sent := r.sent)
    ensures Moves(vm, r, job, d)
  {
    hide Execute, Mem, Get, Read, Excursion, Upper, Length, Ideal, Target, BitOf, Fit;
    var v := Get(Mem(d, vm), vm.cv);
    Beginning(v);
    var c7 := Read(7, Ask(VB, rest));
    ExcursionTarget(c7);
    var vm1 := Going(vm, STARTMERGE, ReadFirst(c7), job, d);
    var vm2 := ReadingOne(vm1, v, 8, Op(ITSKIP, Excursion(c7)), job, d);
    var vm3 := Jumping(vm2, ITSKIP, Excursion(c7), c7, job, d);
    if !vm2.ack {
      vm3 := Excusing(vm3, c7, job, d);
    }
    var vm4 := ReadingBits(vm3, v, 7, Ask(VB, rest), job, d);
    r := Verifying(vm4, rest, job, d);
  }

  lemma ExcursionTarget(c: Code)
    ensures Target(Excursion(c)) == At(c)
  {
    hide Target, Length;
    TargetPast(SKIPTARGET, c);
    TargetSet(SETBIT, 6, Op(SKIPTARGET, c));
    TargetPast(NAKFAIL, SetBit(6, Op(SKIPTARGET, c)));
    TargetAsk(V1, Op(NAKFAIL, SetBit(6, Op(SKIPTARGET, c))));
    TargetSet(SETBIT, 7, Ask(V1, Op(NAKFAIL, SetBit(6, Op(SKIPTARGET, c)))));
  }

  /** readCV returns the CV. */
  lemma CvIsRead(cv: int, d: Decoder, ack: bool, stash: nat, retries: nat) returns (r: Vm)
    requires Get(d.cvs, cv) < 256
    ensures Ran(ReadCv(cv), d, ack, stash, retries) == Done(Get(d.cvs, cv), r)
  {
    hide Execute, ReadCarefully, Length, Ideal, Get;
    var job := Accept(ReadCv(cv)).job;
    var vm := Begin(job, ack, stash, retries);
    assert Mem(d, vm) == d.cvs;
    hide Mem;
    var vm1 := Going(vm, BASELINE, ReadCarefully(Op(ITCB, FAIL)), job, d);
    r := ReadingCarefully(vm1, Op(ITCB, FAIL), job, d);
    Calling(r, ITCB, FAIL, job, d);
  }

  /** verifyCVByte returns the CV, whether or not it is the value asked about. */
  lemma CvIsVerified(cv: int, value: nat, d: Decoder, ack: bool, stash: nat, retries: nat) returns (r: Vm)
    requires Get(d.cvs, cv) < 256
    ensures Ran(VerifyCvByte(cv, value), d, ack, stash, retries) == Done(Get(d.cvs, cv), r)
  {
    hide Execute, ReadCarefully, Length, Ideal, Get;
    var job := Accept(VerifyCvByte(cv, value)).job;
    var vm := Begin(job, ack, stash, retries);
    assert Mem(d, vm) == d.cvs;
    hide Mem;
    var c := ReadCarefully(Op(ITCBV, FAIL));
    var vm1 := Going(vm, BASELINE, Op(BIV, Ask(VB, Op(ITCB, c))), job, d);
    var vm2 := Restoring(vm1, Ask(VB, Op(ITCB, c)), job, d);
    r := VerifyingOrReading(vm2, job, d);
  }

  /** Back to the value asked about. */
  lemma Restoring(vm: Vm, rest: Code, job: Job, d: Decoder) returns (r: Vm)
    requires vm.rest == Op(BIV, rest)
    ensures r == vm.(rest := rest, byte := job.value) && Moves(vm, r, job, d)
  {
    hide Execute, MemOf, Leads;
    Doing(vm, BIV, rest, job, d);
    r := vm.(rest := rest, byte := job.value);
  }

  lemma VerifyingOrReading(vm: Vm, job: Job, d: Decoder) returns (r: Vm)
    requires vm.rest == Ask(VB, Op(ITCB, ReadCarefully(Op(ITCBV, FAIL)))) && Get(Mem(d, vm), vm.cv) < 256
    ensures Execute(vm, job, Ideal(d)) == Done(Get(Mem(d, vm), vm.cv), r)
  {
    hide Execute, ReadCarefully, Length, Ideal, Get, Mem;
    var c := ReadCarefully(Op(ITCBV, FAIL));
    r := Verifying(vm, Op(ITCB, c), job, d);
    if r.ack {
      Calling(r, ITCB, c, job, d);
    } else {
      var vm3 := Ignoring(r, ITCB, c, job, d);
      r := ReadingCarefully(vm3, Op(ITCBV, FAIL), job, d);
      Calling(r, ITCBV, FAIL, job, d);
    }
  }

  /** writeCVByte, and then readCV or verifyCVByte with whatever guess: the byte written. */
  lemma CvByteRoundTrip(cv: int, value: nat, guess: nat, d: Decoder, ack: bool, stash: nat, retries: nat)
    requires value < 256
    ensures var w := Ran(WriteCvByte(cv, value), d, ack, stash, retries);
            && w.Done? && w.value == 1
            && var a, b := Ran(ReadCv(cv), Left(d, w.vm), ack, stash, retries), Ran(VerifyCvByte(cv, guess), Left(d, w.vm), ack, stash, retries);
               a.Done? && b.Done? && a.value == b.value == value
  {
    var r := CvIsWritten(cv, value, d, ack, stash, retries);
    hide Ran, Mem;
    var r1 := CvIsRead(cv, Left(d, r), ack, stash, retries);
    var r2 := CvIsVerified(cv, guess, Left(d, r), ack, stash, retries);
  }

  lemma CvIsWritten(cv: int, value: nat, d: Decoder, ack: bool, stash: nat, retries: nat) returns (r: Vm)
    ensures Ran(WriteCvByte(cv, value), d, ack, stash, retries) == Done(1, r)
    ensures Get(Mem(d, r), cv) == value
  {
    hide Execute, WriteLast, Length, Ideal;
    var job := Accept(WriteCvByte(cv, value)).job;
    var vm := Begin(job, ack, stash, retries);
    hide Mem;
    var vm1 := Going(vm, BASELINE, WriteLast(), job, d);
    r := WritingLast(vm1, job, d);
  }

  // ---------------------------------------------------------------- bits

  lemma {:induction false} UpperIs(v: nat, n: nat)
    requires n <= 7
    ensures Upper(v, n) == v / Pow2(n)
  {
    if n > 0 {
      UpperIs(v, n - 1);
    }
  }

  lemma {:induction false} UpperAdds(v: nat, b: nat, j: nat)
    requires j <= b <= 7
    ensures Upper(v + Pow2(b), j) == Upper(v, j) + Pow2(b - j)
  {
    if j > 0 {
      UpperAdds(v, b, j - 1);
      assert Pow2(b - j + 1) == 2 * Pow2(b - j);
    }
  }

  /** A byte with a bit clear has room for it. */
  lemma Room(v: nat, bit: nat)
    requires v < 256 && bit < 8 && v / Pow2(bit) % 2 == 0
    ensures v + Pow2(bit) < 256
  {
  }

  lemma BitAfterWrite(v: nat, bit: nat, on: bool)
    requires v < 256 && bit < 8
    ensures 0 <= WithBit(v, bit, on) < 256 && BitOf(WithBit(v, bit, on), bit) == on
  {
    if BitOf(v, bit) != on {
      if on {
        UpperIs(v, bit);
        Room(v, bit);
        UpperAdds(v, bit, bit);
      } else {
        BitMeansEnough(v, bit);
        UpperAdds(v - Pow2(bit), bit, bit);
      }
    }
    hide Upper, Pow2;
  }

  lemma BitMeansEnough(v: nat, bit: nat)
    requires bit < 8 && BitOf(v, bit)
    ensures v >= Pow2(bit)
  {
    UpperIs(v, bit);
    hide Upper;
  }

  /** A bit as the programs report it. */
  function Reported(on: bool): int {
    if on then 1 else 0
  }

  /** Asking first for one value and then for the other. */
  lemma AskingBoth(vm: Vm, on: bool, job: Job, d: Decoder) returns (r: Vm)
    requires vm.rest == Ask(if on then V1 else V0, Op(if on then ITC1 else ITC0, Ask(if on then V0 else V1, Op(if on then ITC0 else ITC1, FAIL))))
    ensures Execute(vm, job, Ideal(d)) == Done(Reported(BitOf(Get(Mem(d, vm), vm.cv), vm.bit)), r)
  {
    hide Execute, Mem, Get, BitOf, Length, Ideal;
    var c2 := Op(if on then ITC0 else ITC1, FAIL);
    var c1 := Ask(if on then V0 else V1, c2);
    r := Testing(vm, on, Op(if on then ITC1 else ITC0, c1), job, d);
    if r.ack {
      Calling(r, if on then ITC1 else ITC0, c1, job, d);
    } else {
      var vm1 := Ignoring(r, if on then ITC1 else ITC0, c1, job, d);
      r := Testing(vm1, !on, c2, job, d);
      Calling(r, if on then ITC0 else ITC1, FAIL, job, d);
    }
  }

  /** readCVBit and verifyCVBit return the bit, whatever was asked about. */
  lemma BitIsRead(cv: int, bit: nat, guess: bool, d: Decoder, ack: bool, stash: nat, retries: nat) returns (r: Vm, r': Vm)
    requires bit < 8
    ensures Ran(ReadCvBit(cv, bit), d, ack, stash, retries) == Done(Reported(BitOf(Get(d.cvs, cv), bit)), r)
    ensures Ran(VerifyCvBit(cv, bit, guess), d, ack, stash, retries) == Done(Reported(BitOf(Get(d.cvs, cv), bit)), r')
  {
    hide Execute, Length, Ideal, Get, BitOf;
    var job := Accept(ReadCvBit(cv, bit)).job;
    var vm := Begin(job, ack, stash, retries);
    var job' := Accept(VerifyCvBit(cv, bit, guess)).job;
    var vm' := Begin(job', ack, stash, retries);
    assert Mem(d, vm) == d.cvs && Mem(d, vm') == d.cvs;
    hide Mem;
    var vm1 := Going(vm, BASELINE, vm.rest.rest, job, d);
    r := AskingBoth(vm1, true, job, d);
    var vm2 := Going(vm', BASELINE, vm'.rest.rest, job', d);
    r' := AskingBoth(vm2, guess, job', d);
  }

  lemma BitIsWritten(cv: int, bit: nat, on: bool, d: Decoder, ack: bool, stash: nat, retries: nat) returns (r: Vm)
    requires bit < 8 && Get(d.cvs, cv) < 256
    ensures Ran(WriteCvBit(cv, bit, on), d, ack, stash, retries) == Done(1, r)
    ensures Mem(d, r) == d.cvs[cv := Get(Mem(d, r), cv)] && BitOf(Get(Mem(d, r), cv), bit) == on
  {
    hide Execute, Length, Ideal, BitOf, WithBit;
    BitAfterWrite(Get(d.cvs, cv), bit, on);
    var job := Accept(WriteCvBit(cv, bit, on)).job;
    var vm := Begin(job, ack, stash, retries);
    assert Mem(d, vm) == d.cvs;
    hide Mem;
    var c := Ask(if on then V1 else V0, Op(ITC1, FAIL));
    var vm1 := Going(vm, BASELINE, Ask(if on then W1 else W0, c), job, d);
    var vm2 := WritingBit(vm1, on, c, job, d);
    r := Testing(vm2, on, Op(ITC1, FAIL), job, d);
    Calling(r, ITC1, FAIL, job, d);
  }

  /** writeCVBit, and then readCVBit or verifyCVBit: the bit written; bit numbers from 8 up are refused. */
  lemma CvBitRoundTrip(cv: int, bit: nat, on: bool, guess: bool, d: Decoder, ack: bool, stash: nat, retries: nat)
    requires Get(d.cvs, cv) < 256
    ensures Accept(WriteCvBit(cv, bit, on)).Started? <==> bit < 8
    ensures bit < 8 ==>
              var w := Ran(WriteCvBit(cv, bit, on), d, ack, stash, retries);
              && w.Done? && w.value == 1
              && var a, b := Ran(ReadCvBit(cv, bit), Left(d, w.vm), ack, stash, retries), Ran(VerifyCvBit(cv, bit, guess), Left(d, w.vm), ack, stash, retries);
                 a.Done? && b.Done? && a.value == b.value == Reported(on)
  {
    if bit < 8 {
      var r := BitIsWritten(cv, bit, on, d, ack, stash, retries);
      hide Ran, Mem, BitOf;
      var r1, r2 := BitIsRead(cv, bit, guess, Left(d, r), ack, stash, retries);
    }
  }
}
