/** The flag array of EXRAIL: one byte an id, shared by track sections, sensor latches, task ids
    and signal states.  The main result is mutual exclusion of reserved sections over every run. */
module ExrailFlags {
  const MAX_FLAGS: nat := 256

  const SECTION_FLAG: bv8 := 0x80
  const LATCH_FLAG: bv8 := 0x40
  const TASK_FLAG: bv8 := 0x20
  const SIGNAL_MASK: bv8 := 0x0C
  const SIGNAL_RED: bv8 := 0x08
  const SIGNAL_AMBER: bv8 := 0x0C
  const SIGNAL_GREEN: bv8 := 0x04

  type Flags = f: seq<bv8> | |f| == MAX_FLAGS witness seq(MAX_FLAGS, _ => 0)

  /** `setFlag`: ids outside the array are ignored. */
  function SetFlag(f: Flags, id: nat, onMask: bv8, offMask: bv8): Flags {
    if id >= MAX_FLAGS then f else f[id := (f[id] & !offMask) | onMask]
  }

  predicate GetFlag(f: Flags, id: nat, mask: bv8) {
    id < MAX_FLAGS && f[id] & mask != 0
  }

  /** The bits one use of the array may touch. */
  datatype Use = Section | Latch | TaskId | Signal

  function Mask(u: Use): bv8 {
    match u
    case Section => SECTION_FLAG
    case Latch => LATCH_FLAG
    case TaskId => TASK_FLAG
    case Signal => SIGNAL_MASK
  }

  datatype Aspect = Red | Amber | Green

  function AspectBits(a: Aspect): bv8 {
    match a
    case Red => SIGNAL_RED
    case Amber => SIGNAL_AMBER
    case Green => SIGNAL_GREEN
  }

  /** Everything the interpreter does to the array. */
  datatype Op =
    | Reserve(id: nat)          // RESERVE and IFRESERVE
    | Free(id: nat)
    | FreeAll
    | SetLatch(id: nat)
    | Unlatch(id: nat)
    | TakeTask(id: nat)         // a task takes an id
    | DropTask(id: nat)
    | ShowSignal(id: nat, aspect: Aspect)

  function UseOf(op: Op): Use {
    match op
    case Reserve(_) => Section
    case Free(_) => Section
    case FreeAll => Section
    case SetLatch(_) => Latch
    case Unlatch(_) => Latch
    case TakeTask(_) => TaskId
    case DropTask(_) => TaskId
    case ShowSignal(_, _) => Signal
  }

  function FreeUpTo(f: Flags, n: nat): Flags
    requires n <= MAX_FLAGS
  {
    if n == 0 then f else SetFlag(FreeUpTo(f, n - 1), n - 1, 0, SECTION_FLAG)
  }

  /** A reservation succeeds if the section's flag is clear. */
  predicate Succeeds(f: Flags, op: Op) {
    op.Reserve? ==> !GetFlag(f, op.id, SECTION_FLAG)
  }

  function Apply(f: Flags, op: Op): Flags {
    match op
    case Reserve(id) => if GetFlag(f, id, SECTION_FLAG) then f else SetFlag(f, id, SECTION_FLAG, 0)
    case Free(id) => SetFlag(f, id, 0, SECTION_FLAG)
    case FreeAll => FreeUpTo(f, MAX_FLAGS)
    case SetLatch(id) => SetFlag(f, id, LATCH_FLAG, 0)
    case Unlatch(id) => SetFlag(f, id, 0, LATCH_FLAG)
    case TakeTask(id) => SetFlag(f, id, TASK_FLAG, 0)
    case DropTask(id) => SetFlag(f, id, 0, TASK_FLAG)
    case ShowSignal(id, aspect) => SetFlag(f, id, AspectBits(aspect), SIGNAL_MASK)
  }

  function ApplyAll(f: Flags, ops: seq<Op>): Flags {
    if ops == [] then f else Apply(ApplyAll(f, ops[..|ops| - 1]), ops[|ops| - 1])
  }

  // ---------------------------------------------------------------- independence

  lemma BitsApart(b: bv8, on: bv8, off: bv8, mine: bv8, other: bv8)
    requires on & !mine == 0 && off & !mine == 0 && mine & other == 0
    ensures ((b & !off) | on) & other == b & other
  {
  }

  lemma MasksApart(u: Use, v: Use)
    requires u != v
    ensures Mask(u) & Mask(v) == 0
  {
    assert SECTION_FLAG & LATCH_FLAG == 0 && SECTION_FLAG & TASK_FLAG == 0 && SECTION_FLAG & SIGNAL_MASK == 0
        && LATCH_FLAG & TASK_FLAG == 0 && LATCH_FLAG & SIGNAL_MASK == 0 && TASK_FLAG & SIGNAL_MASK == 0;
    assert LATCH_FLAG & SECTION_FLAG == 0 && TASK_FLAG & SECTION_FLAG == 0 && SIGNAL_MASK & SECTION_FLAG == 0
        && TASK_FLAG & LATCH_FLAG == 0 && SIGNAL_MASK & LATCH_FLAG == 0 && SIGNAL_MASK & TASK_FLAG == 0;
  }

  /** These bits belong to one use. */
  predicate Within(bits: bv8, u: Use) {
    bits & !Mask(u) == 0
  }

  lemma OwnBits(u: Use, a: Aspect)
    ensures Within(0, u) && Within(Mask(u), u) && Within(AspectBits(a), Signal)
  {
    var m := Mask(u);
    assert (0 as bv8) & !m == 0 && m & !m == 0;
    assert SIGNAL_RED & !SIGNAL_MASK == 0 && SIGNAL_AMBER & !SIGNAL_MASK == 0 && SIGNAL_GREEN & !SIGNAL_MASK == 0;
  }

  lemma SetKeepsOthers(f: Flags, id: nat, on: bv8, off: bv8, u: Use, v: Use, i: nat)
    requires u != v && i < MAX_FLAGS && Within(on, u) && Within(off, u)
    ensures SetFlag(f, id, on, off)[i] & Mask(v) == f[i] & Mask(v)
  {
    MasksApart(u, v);
    BitsApart(f[i], on, off, Mask(u), Mask(v));
  }

  lemma {:induction false} FreeKeepsOthers(f: Flags, n: nat, v: Use, i: nat)
    requires n <= MAX_FLAGS && i < MAX_FLAGS && v != Section
    ensures FreeUpTo(f, n)[i] & Mask(v) == f[i] & Mask(v)
    decreases n
  {
    if n > 0 {
      FreeKeepsOthers(f, n - 1, v, i);
      OwnBits(Section, Red);
      SetKeepsOthers(FreeUpTo(f, n - 1), n - 1, 0, SECTION_FLAG, Section, v, i);
    }
  }

  /** The bits an operation on one number switches on and off. */
  function On(op: Op): bv8 {
    match op
    case Reserve(_) => SECTION_FLAG
    case SetLatch(_) => LATCH_FLAG
    case TakeTask(_) => TASK_FLAG
    case ShowSignal(_, aspect) => AspectBits(aspect)
    case _ => 0
  }

  function Off(op: Op): bv8 {
    match op
    case Free(_) => SECTION_FLAG
    case Unlatch(_) => LATCH_FLAG
    case DropTask(_) => TASK_FLAG
    case ShowSignal(_, _) => SIGNAL_MASK
    case _ => 0
  }

  /** Every operation but FREEALL is one call of setFlag, or none. */
  lemma ApplySets(f: Flags, op: Op)
    requires op != FreeAll
    ensures if op.Reserve? && GetFlag(f, op.id, SECTION_FLAG) then Apply(f, op) == f else Apply(f, op) == SetFlag(f, op.id, On(op), Off(op))
  {
    hide SetFlag, GetFlag, AspectBits;
  }

  lemma ApplyFrees(f: Flags)
    ensures Apply(f, FreeAll) == FreeUpTo(f, MAX_FLAGS) && UseOf(FreeAll) == Section
  {
  }

  lemma OnOffWithin(op: Op)
    requires op != FreeAll
    ensures Within(On(op), UseOf(op)) && Within(Off(op), UseOf(op))
  {
    OwnBits(UseOf(op), if op.ShowSignal? then op.aspect else Red);
    hide Within, AspectBits;
  }

  /** No use of the array ever changes the bits of another. */
  lemma UsesAreIndependent(f: Flags, op: Op, v: Use, i: nat)
    requires i < MAX_FLAGS && v != UseOf(op)
    ensures Apply(f, op)[i] & Mask(v) == f[i] & Mask(v)
  {
    hide *;
    if op == FreeAll {
      ApplyFrees(f);
      FreeKeepsOthers(f, MAX_FLAGS, v, i);
    } else {
      ApplySets(f, op);
      OnOffWithin(op);
      SetKeepsOthers(f, op.id, On(op), Off(op), UseOf(op), v, i);
    }
  }

  // ---------------------------------------------------------------- mutual exclusion

  predicate Releases(op: Op, id: nat) {
    op == FreeAll || op == Free(id)
  }

  lemma HeldStaysHeld(f: Flags, op: Op, id: nat)
    requires GetFlag(f, id, SECTION_FLAG) && !Releases(op, id)
    ensures GetFlag(Apply(f, op), id, SECTION_FLAG)
  {
    if UseOf(op) != Section {
      UsesAreIndependent(f, op, Section, id);
    } else {
      hide FreeUpTo;
    }
  }

  lemma {:induction false} HeldThroughout(f: Flags, ops: seq<Op>, id: nat)
    requires GetFlag(f, id, SECTION_FLAG)
    requires forall i :: 0 <= i < |ops| ==> !Releases(ops[i], id)
    ensures GetFlag(ApplyAll(f, ops), id, SECTION_FLAG)
    decreases |ops|
  {
    if ops != [] {
      var front := ops[..|ops| - 1];
      HeldThroughout(f, front, id);
      hide Apply, GetFlag, Releases;
      HeldStaysHeld(ApplyAll(f, front), ops[|ops| - 1], id);
    }
  }

  lemma ReservedIsHeld(f: Flags, id: nat)
    requires id < MAX_FLAGS
    ensures GetFlag(Apply(f, Reserve(id)), id, SECTION_FLAG)
  {
    var b := f[id];
    assert ((b & !0) | SECTION_FLAG) & SECTION_FLAG != 0;
  }

  /** Between a reservation of a section below 256 and its release no other reservation of it
      succeeds, whatever else the tasks do meanwhile. */
  lemma ReservationExcludes(f: Flags, ops: seq<Op>, id: nat)
    requires id < MAX_FLAGS
    requires forall i :: 0 <= i < |ops| ==> !Releases(ops[i], id)
    ensures !Succeeds(ApplyAll(Apply(f, Reserve(id)), ops), Reserve(id))
  {
    ReservedIsHeld(f, id);
    HeldThroughout(Apply(f, Reserve(id)), ops, id);
  }

  /** The limit is real: a second reservation of the same section is refused if and only if its
      number fits the array. */
  lemma SecondReservationRefused(f: Flags, id: nat)
    ensures !Succeeds(Apply(f, Reserve(id)), Reserve(id)) <==> id < MAX_FLAGS
  {
    if id < MAX_FLAGS {
      ReservedIsHeld(f, id);
    }
  }

  /** Releasing a section makes it available again. */
  lemma FreedIsAvailable(f: Flags, id: nat)
    ensures Succeeds(Apply(f, Free(id)), Reserve(id))
  {
    if id < MAX_FLAGS {
      var b := f[id];
      assert ((b & !SECTION_FLAG) | 0) & SECTION_FLAG == 0;
    }
  }

  // ---------------------------------------------------------------- the last word wins

  /** isSignal: whether a signal shows an aspect. */
  predicate IsSignal(f: Flags, id: nat, aspect: Aspect)
    requires id < MAX_FLAGS
  {
    f[id] & SIGNAL_MASK == AspectBits(aspect)
  }

  /** What has been said last about a section, a latch, a task id and a signal. */
  function Held(ops: seq<Op>, id: nat): bool {
    ops != [] &&
    var n := |ops| - 1;
    if ops[n] == Reserve(id) then true else if ops[n] == Free(id) || ops[n] == FreeAll then false else Held(ops[..n], id)
  }

  function Latched(ops: seq<Op>, id: nat): bool {
    ops != [] &&
    var n := |ops| - 1;
    if ops[n] == SetLatch(id) then true else if ops[n] == Unlatch(id) then false else Latched(ops[..n], id)
  }

  function Taken(ops: seq<Op>, id: nat): bool {
    ops != [] &&
    var n := |ops| - 1;
    if ops[n] == TakeTask(id) then true else if ops[n] == DropTask(id) then false else Taken(ops[..n], id)
  }

  function Shown(ops: seq<Op>, id: nat): seq<Aspect> {
    if ops == [] then []
    else
      var n := |ops| - 1;
      if ops[n].ShowSignal? && ops[n].id == id then [ops[n].aspect] else Shown(ops[..n], id)
  }

  /** The two bits of a signal that shows this, or nothing yet. */
  function SignalBits(shown: seq<Aspect>): bv8 {
    if shown == [] then 0x00
    else if shown[0] == Red then 0x08
    else if shown[0] == Amber then 0x0C
    else 0x04
  }

  function Clear(): Flags {
    seq(MAX_FLAGS, _ => 0)
  }

  // The parts of a byte.

  predicate SectionOf(b: bv8) {
    b & 0x80 != 0
  }

  predicate LatchOf(b: bv8) {
    b & 0x40 != 0
  }

  predicate TaskOf(b: bv8) {
    b & 0x20 != 0
  }

  function SignalOf(b: bv8): bv8 {
    b & 0x0C
  }

  /** The bits of one place: section, latch and task flags, and the signal. */
  predicate Says(b: bv8, held: bool, latched: bool, taken: bool, shown: seq<Aspect>) {
    (SectionOf(b) <==> held) && (LatchOf(b) <==> latched) && (TaskOf(b) <==> taken) && SignalOf(b) == SignalBits(shown)
  }

  function Mixed(b: bv8, on: bv8, off: bv8): bv8 {
    (b & !off) | on
  }

  function Freed(b: bv8): bv8 {
    b & !SECTION_FLAG
  }

  lemma {:induction false} FreedUpTo(f: Flags, n: nat, i: nat)
    requires n <= MAX_FLAGS && i < MAX_FLAGS
    ensures FreeUpTo(f, n)[i] == if i < n then Freed(f[i]) else f[i]
    decreases n
  {
    if n > 0 {
      FreedUpTo(f, n - 1, i);
      var b := f[i];
      assert (b & !SECTION_FLAG) | 0 == b & !SECTION_FLAG;
    }
  }

  /** What an operation makes of the byte at one number. */
  function Written(b: bv8, op: Op, id: nat): bv8 {
    match op
    case Reserve(x) => if x == id then b | 0x80 else b
    case Free(x) => if x == id then b & 0x7F else b
    case FreeAll => b & 0x7F
    case SetLatch(x) => if x == id then b | 0x40 else b
    case Unlatch(x) => if x == id then b & 0xBF else b
    case TakeTask(x) => if x == id then b | 0x20 else b
    case DropTask(x) => if x == id then b & 0xDF else b
    case ShowSignal(x, aspect) => if x == id then (b & 0xF3) | SignalBits([aspect]) else b
  }

  lemma ByteAfter(f: Flags, op: Op, id: nat)
    requires id < MAX_FLAGS
    ensures Apply(f, op)[id] == Written(f[id], op, id)
  {
    hide *;
    if op == FreeAll {
      ApplyFrees(f);
      FreedUpTo(f, MAX_FLAGS, id);
      FreedIs(f[id], id);
    } else {
      ApplySets(f, op);
      WrittenIs(f[id], op, id);
      SetAt(f, op.id, On(op), Off(op), id);
      if op.Reserve? {
        FlagIs(f, op.id);
      }
    }
  }

  lemma FreedIs(b: bv8, id: nat)
    ensures Written(b, FreeAll, id) == Freed(b)
  {
  }

  lemma FlagIs(f: Flags, id: nat)
    ensures GetFlag(f, id, SECTION_FLAG) ==> id < MAX_FLAGS && SectionOf(f[id])
  {
  }

  lemma SetAt(f: Flags, id: nat, on: bv8, off: bv8, i: nat)
    requires i < MAX_FLAGS
    ensures SetFlag(f, id, on, off)[i] == if i == id then Mixed(f[i], on, off) else f[i]
  {
  }

  lemma WrittenIs(b: bv8, op: Op, id: nat)
    requires op != FreeAll
    ensures Written(b, op, id) == if op.id == id then Mixed(b, On(op), Off(op)) else b
    ensures op.Reserve? && SectionOf(b) ==> Written(b, op, id) == b
  {
    ByteMasks(b, op);
    hide SignalBits, AspectBits;
  }

  lemma ByteMasks(b: bv8, op: Op)
    ensures (b & !0) | SECTION_FLAG == b | 0x80 && (b & !SECTION_FLAG) | 0 == b & 0x7F && b & !SECTION_FLAG == b & 0x7F
    ensures (b & !0) | LATCH_FLAG == b | 0x40 && (b & !LATCH_FLAG) | 0 == b & 0xBF
    ensures (b & !0) | TASK_FLAG == b | 0x20 && (b & !TASK_FLAG) | 0 == b & 0xDF
    ensures b & SECTION_FLAG != 0 ==> b | 0x80 == b
    ensures op.ShowSignal? ==> (b & !SIGNAL_MASK) | AspectBits(op.aspect) == (b & 0xF3) | SignalBits([op.aspect])
  {
  }

  predicate SameParts(a: bv8, b: bv8, section: bool, latch: bool, task: bool, signal: bool) {
    && (section ==> SectionOf(a) == SectionOf(b)) && (latch ==> LatchOf(a) == LatchOf(b))
    && (task ==> TaskOf(a) == TaskOf(b)) && (signal ==> SignalOf(a) == SignalOf(b))
  }

  lemma SectionWritten(b: bv8)
    ensures SectionOf(b | 0x80) && SameParts(b | 0x80, b, false, true, true, true)
    ensures !SectionOf(b & 0x7F) && SameParts(b & 0x7F, b, false, true, true, true)
  {
  }

  lemma LatchWritten(b: bv8)
    ensures LatchOf(b | 0x40) && SameParts(b | 0x40, b, true, false, true, true)
    ensures !LatchOf(b & 0xBF) && SameParts(b & 0xBF, b, true, false, true, true)
  {
  }

  lemma TaskWritten(b: bv8)
    ensures TaskOf(b | 0x20) && SameParts(b | 0x20, b, true, true, false, true)
    ensures !TaskOf(b & 0xDF) && SameParts(b & 0xDF, b, true, true, false, true)
  {
  }

  lemma SignalWritten(b: bv8, aspect: Aspect)
    ensures var b' := (b & 0xF3) | SignalBits([aspect]);
            SignalOf(b') == SignalBits([aspect]) && SameParts(b', b, true, true, true, false)
  {
  }

  /** What an operation says of each part. */
  lemma PartsWritten(b: bv8, op: Op, id: nat)
    ensures var b' := Written(b, op, id);
            && SectionOf(b') == (op == Reserve(id) || (op != Free(id) && op != FreeAll && SectionOf(b)))
            && LatchOf(b') == (op == SetLatch(id) || (op != Unlatch(id) && LatchOf(b)))
            && TaskOf(b') == (op == TakeTask(id) || (op != DropTask(id) && TaskOf(b)))
            && SignalOf(b') == if op.ShowSignal? && op.id == id then SignalBits([op.aspect]) else SignalOf(b)
  {
    SectionWritten(b);
    LatchWritten(b);
    TaskWritten(b);
    if op.ShowSignal? {
      SignalWritten(b, op.aspect);
    }
    hide SectionOf, LatchOf, TaskOf, SignalOf, SignalBits;
  }

  /** One operation more. */
  lemma SaysMore(b: bv8, ops: seq<Op>, id: nat)
    requires ops != []
    requires var front := ops[..|ops| - 1]; Says(b, Held(front, id), Latched(front, id), Taken(front, id), Shown(front, id))
    ensures Says(Written(b, ops[|ops| - 1], id), Held(ops, id), Latched(ops, id), Taken(ops, id), Shown(ops, id))
  {
    PartsWritten(b, ops[|ops| - 1], id);
    hide Written, SectionOf, LatchOf, TaskOf, SignalOf, SignalBits;
  }

  /** In every run, for every number that fits: a section is held exactly if the last thing said of it was
      a reservation, a latch is set exactly if it was set last, a task id is taken exactly if it was taken
      last, and the signal bits are those of the aspect shown last. */
  lemma {:induction false} FlagsRemember(ops: seq<Op>, id: nat)
    requires id < MAX_FLAGS
    ensures Says(ApplyAll(Clear(), ops)[id], Held(ops, id), Latched(ops, id), Taken(ops, id), Shown(ops, id))
  {
    if ops != [] {
      var n := |ops| - 1;
      var f := ApplyAll(Clear(), ops[..n]);
      FlagsRemember(ops[..n], id);
      ByteAfter(f, ops[n], id);
      SaysMore(f[id], ops, id);
      hide Says, Written, Held, Latched, Taken, Shown, Apply, Clear;
    }
  }

  /** So a signal shows exactly the aspect it was last told to show, and before that none. */
  lemma SignalShows(ops: seq<Op>, id: nat, aspect: Aspect)
    requires id < MAX_FLAGS
    ensures IsSignal(ApplyAll(Clear(), ops), id, aspect) <==> Shown(ops, id) == [aspect]
  {
    FlagsRemember(ops, id);
    ShownIs(ops, id);
    hide ApplyAll, Shown;
  }

  lemma {:induction false} ShownIs(ops: seq<Op>, id: nat)
    ensures |Shown(ops, id)| <= 1
  {
    if ops != [] {
      ShownIs(ops[..|ops| - 1], id);
    }
  }
}
