/** EXRAIL scripts, the RouteCode bytes the macros make of them, and the machine that runs the
    bytes.  The main result is that flattening IF / ELSE / ENDIF into three-byte instructions and
    finding the way back with `skipIfBlock` preserves the structured meaning of every script. */
module ExrailCode {
  type Byte = x: int | 0 <= x < 256
  type Word = x: int | 0 <= x < 65536

  // ---------------------------------------------------------------- opcodes (EXRAIL2.h)

  const OPCODE_ENDIF: Byte := 26
  const OPCODE_ELSE: Byte := 27
  const OPCODE_PAD: Byte := 48
  const OPCODE_FOLLOW: Byte := 49
  const OPCODE_CALL: Byte := 50
  const OPCODE_RETURN: Byte := 51
  const OPCODE_KILLALL: Byte := 78
  const OPCODE_ROUTE: Byte := 79
  const OPCODE_AUTOMATION: Byte := 80
  const OPCODE_SEQUENCE: Byte := 81
  const OPCODE_ENDTASK: Byte := 82
  const OPCODE_ENDEXRAIL: Byte := 83
  const OPCODE_RANDOM_CALL: Byte := 137
  const OPCODE_RANDOM_FOLLOW: Byte := 138

  /** Opcodes above this one open an IF block. */
  const IF_TYPE_OPCODES: Byte := 140
  const LAST_OPCODE: Byte := 163

  predicate IsIf(op: Byte) {
    IF_TYPE_OPCODES < op <= LAST_OPCODE
  }

  /** Instructions after which the task does not simply go on with the next one. */
  predicate IsExit(op: Byte) {
    op in {OPCODE_FOLLOW, OPCODE_RANDOM_FOLLOW, OPCODE_RETURN, OPCODE_KILLALL, OPCODE_ENDTASK}
  }

  /** Opcodes of the table that the interpreter does not know (SIGNAL, ROSTER, ONCLOCKTIME,
      ONVP_SENSOR). */
  predicate IsUnknown(op: Byte) {
    op in {45, 77, 90, 119} || op == IF_TYPE_OPCODES || op > LAST_OPCODE
  }

  /** Everything else does something and falls through to the next instruction.  A CALL counts: it
      does the called sequence. */
  predicate IsAction(op: Byte) {
    && !IsIf(op) && !IsExit(op) && !IsUnknown(op)
    && op !in {OPCODE_ENDIF, OPCODE_ELSE, OPCODE_PAD, OPCODE_ENDEXRAIL}
  }

  // ---------------------------------------------------------------- scripts

  /** A block of a script, well nested by construction.  Operands are never empty: macros without
      parameters use a zero. */
  datatype Script =
    | Nothing
    | Act(op: Byte, args: seq<Word>, next: Script)
    | Leave(op: Byte, args: seq<Word>, next: Script)
    | IfThen(op: Byte, args: seq<Word>, thn: Script, next: Script)
    | IfElse(op: Byte, args: seq<Word>, thn: Script, els: Script, next: Script)

  predicate ScriptOk(s: Script) {
    match s
    case Nothing => true
    case Act(op, args, next) => IsAction(op) && args != [] && ScriptOk(next)
    case Leave(op, args, next) => IsExit(op) && args != [] && ScriptOk(next)
    case IfThen(op, args, thn, next) => IsIf(op) && args != [] && ScriptOk(thn) && ScriptOk(next)
    case IfElse(op, args, thn, els, next) =>
      IsIf(op) && args != [] && ScriptOk(thn) && ScriptOk(els) && ScriptOk(next)
  }

  // ---------------------------------------------------------------- what a script means

  /** What the layout says when the task asks: whether a condition holds, or whether an action is
      still waiting for something. */
  datatype Answer = Yes | No | NotYet

  datatype Event = Did(op: Byte, args: seq<Word>) | Tested(op: Byte, args: seq<Word>, holds: bool)

  datatype Ending =
    | Ran(answers: seq<Answer>)          // fell out at the end, with these answers unused
    | Left(op: Byte, args: seq<Word>)    // met an instruction that leaves the block
    | Blocked                            // no more answers: still waiting
    | Killed                             // the machine gave up

  datatype Outcome = Outcome(trace: seq<Event>, ending: Ending)

  function Before(e: Event, o: Outcome): Outcome {
    Outcome([e] + o.trace, o.ending)
  }

  /** The structured meaning: conditions choose branches, actions happen in order, and an action
      that is not finished yet is asked again. */
  function Exec(s: Script, answers: seq<Answer>): Outcome
    decreases s, 0, |answers|
  {
    match s
    case Nothing => Outcome([], Ran(answers))
    case Leave(op, args, _) => Outcome([], Left(op, args))
    case Act(op, args, next) =>
      if answers == [] then Outcome([], Blocked)
      else if answers[0] == NotYet then Exec(s, answers[1..])
      else Before(Did(op, args), Exec(next, answers[1..]))
    case IfThen(op, args, thn, next) =>
      if answers == [] then Outcome([], Blocked)
      else
        var holds := answers[0] == Yes;
        Before(Tested(op, args, holds),
               if holds then AndThen(Exec(thn, answers[1..]), next) else Exec(next, answers[1..]))
    case IfElse(op, args, thn, els, next) =>
      if answers == [] then Outcome([], Blocked)
      else
        var holds := answers[0] == Yes;
        Before(Tested(op, args, holds),
               AndThen(if holds then Exec(thn, answers[1..]) else Exec(els, answers[1..]), next))
  }

  function AndThen(o: Outcome, next: Script): Outcome
    decreases next, 1, 0
  {
    if o.ending.Ran? then
      var rest := Exec(next, o.ending.answers);
      Outcome(o.trace + rest.trace, rest.ending)
    else o
  }

  // ---------------------------------------------------------------- the macros

  function V(w: Word): (r: seq<Byte>)
    ensures |r| == 2
  {
    [w % 256, w / 256]
  }

  /** Further operands ride on padding instructions. */
  function Pads(args: seq<Word>): seq<Byte> {
    if args == [] then [] else [OPCODE_PAD] + V(args[0]) + Pads(args[1..])
  }

  function Instr(op: Byte, args: seq<Word>): seq<Byte>
    requires args != []
  {
    [op] + V(args[0]) + Pads(args[1..])
  }

  function Compile(s: Script): seq<Byte>
    requires ScriptOk(s)
  {
    match s
    case Nothing => []
    case Act(op, args, next) => Instr(op, args) + Compile(next)
    case Leave(op, args, next) => Instr(op, args) + Compile(next)
    case IfThen(op, args, thn, next) =>
      Instr(op, args) + (Compile(thn) + (Instr(OPCODE_ENDIF, [0]) + Compile(next)))
    case IfElse(op, args, thn, els, next) =>
      Instr(op, args) + (Compile(thn) + (Instr(OPCODE_ELSE, [0]) +
        (Compile(els) + (Instr(OPCODE_ENDIF, [0]) + Compile(next)))))
  }

  /** The whole table: the script, then an ENDTASK and the end marker. */
  function RouteCode(s: Script): seq<Byte>
    requires ScriptOk(s)
  {
    Compile(s) + (Instr(OPCODE_ENDTASK, [0]) + Instr(OPCODE_ENDEXRAIL, [0]))
  }

  // ---------------------------------------------------------------- the machine

  function WordAt(code: seq<Byte>, pc: nat): Word
    requires pc + 3 <= |code|
  {
    var lsb: int, msb: int := code[pc + 1], code[pc + 2];
    lsb + 256 * msb
  }

  /** An instruction's operand and those on the padding after it. */
  function OperandsAt(code: seq<Byte>, pc: nat): seq<Word>
    requires pc + 3 <= |code|
    decreases |code| - pc
  {
    [WordAt(code, pc)] +
    if pc + 6 <= |code| && code[pc + 3] == OPCODE_PAD then OperandsAt(code, pc + 3) else []
  }

  datatype Option<T> = None | Some(value: T)

  /** `skipIfBlock`: from the instruction at pc, the position of the ELSE or ENDIF that closes
      `nest` open blocks, or None if the table ends first. */
  function SkipIf(code: seq<Byte>, pc: nat, nest: nat): Option<nat>
    decreases |code| - pc
  {
    if nest == 0 then Some(pc)
    else if pc + 6 > |code| then None
    else
      var op := code[pc + 3];
      if op > IF_TYPE_OPCODES then SkipIf(code, pc + 3, nest + 1)
      else if op == OPCODE_ENDEXRAIL then None
      else if op == OPCODE_ENDIF then SkipIf(code, pc + 3, nest - 1)
      else if op == OPCODE_ELSE && nest == 1 then Some(pc + 3)
      else SkipIf(code, pc + 3, nest)
  }

  lemma {:induction false} SkipMovesOn(code: seq<Byte>, pc: nat, nest: nat)
    requires SkipIf(code, pc, nest).Some?
    ensures pc <= SkipIf(code, pc, nest).value
    ensures nest > 0 ==> pc < SkipIf(code, pc, nest).value && SkipIf(code, pc, nest).value + 3 <= |code|
    decreases |code| - pc
  {
    if nest > 0 {
      var op := code[pc + 3];
      if op > IF_TYPE_OPCODES {
        SkipMovesOn(code, pc + 3, nest + 1);
      } else if op == OPCODE_ENDIF {
        SkipMovesOn(code, pc + 3, nest - 1);
      } else if !(op == OPCODE_ELSE && nest == 1) {
        SkipMovesOn(code, pc + 3, nest);
      }
    }
  }

  /** Runs a task from pc until it leaves, is killed, or waits for an answer it does not get. */
  function Machine(code: seq<Byte>, pc: nat, answers: seq<Answer>): Outcome
    decreases |answers| + if pc <= |code| then |code| - pc else 0
  {
    if pc + 3 > |code| then Outcome([], Killed)
    else
      var op, args := code[pc], OperandsAt(code, pc);
      if op == OPCODE_PAD || op == OPCODE_ENDIF then Machine(code, pc + 3, answers)
      else if op == OPCODE_ELSE then Skipped(code, pc, answers)
      else if op == OPCODE_ENDEXRAIL || IsExit(op) then Outcome([], Left(op, args))
      else if IsUnknown(op) then Outcome([], Killed)
      else if answers == [] then Outcome([], Blocked)
      else if IsIf(op) then
        var holds := answers[0] == Yes;
        Before(Tested(op, args, holds),
               if holds then Machine(code, pc + 3, answers[1..]) else Skipped(code, pc, answers[1..]))
      else if answers[0] == NotYet then Machine(code, pc, answers[1..])
      else Before(Did(op, args), Machine(code, pc + 3, answers[1..]))
  }

  /** Going on behind the ELSE or ENDIF that closes the block. */
  function Skipped(code: seq<Byte>, pc: nat, answers: seq<Answer>): Outcome
    requires pc + 3 <= |code|
    decreases |answers| + (|code| - pc), 0
  {
    var target := SkipIf(code, pc, 1);
    if target.None? then Outcome([], Killed)
    else
      SkipMovesOn(code, pc, 1);
      Machine(code, target.value + 3, answers)
  }

  // ---------------------------------------------------------------- bytes in place

  /** These bytes stand in the code at pc. */
  ghost predicate At(code: seq<Byte>, pc: nat, bytes: seq<Byte>) {
    pc + |bytes| <= |code| && code[pc..pc + |bytes|] == bytes
  }

  lemma AtSplit(code: seq<Byte>, pc: nat, a: seq<Byte>, b: seq<Byte>)
    requires At(code, pc, a + b)
    ensures At(code, pc, a) && At(code, pc + |a|, b)
  {
    assert code[pc..pc + |a|] == code[pc..pc + |a + b|][..|a|] == a;
    assert code[pc + |a|..pc + |a| + |b|] == code[pc..pc + |a + b|][|a|..] == b;
  }

  lemma {:induction false} PadsLength(args: seq<Word>)
    ensures |Pads(args)| == 3 * |args|
    decreases |args|
  {
    if args != [] {
      PadsLength(args[1..]);
    }
  }

  lemma InstrLength(op: Byte, args: seq<Word>)
    requires args != []
    ensures |Instr(op, args)| == 3 * |args|
  {
    PadsLength(args[1..]);
  }

  /** The first three bytes of an instruction, and the padding behind them. */
  lemma InstrAt(code: seq<Byte>, pc: nat, op: Byte, args: seq<Word>)
    requires args != [] && At(code, pc, Instr(op, args))
    ensures pc + 3 <= |code| && code[pc] == op && WordAt(code, pc) == args[0]
    ensures At(code, pc + 3, Pads(args[1..]))
  {
    var head := [op] + V(args[0]);
    assert |head| == 3;
    AtSplit(code, pc, head, Pads(args[1..]));
    assert code[pc] == code[pc..pc + 3][0] && code[pc + 1] == code[pc..pc + 3][1] && code[pc + 2] == code[pc..pc + 3][2];
  }

  lemma PadsAt(code: seq<Byte>, pc: nat, args: seq<Word>)
    requires args != [] && At(code, pc, Pads(args))
    ensures pc + 3 <= |code| && code[pc] == OPCODE_PAD && WordAt(code, pc) == args[0]
    ensures At(code, pc + 3, Pads(args[1..]))
  {
    assert Pads(args) == Instr(OPCODE_PAD, args);
    InstrAt(code, pc, OPCODE_PAD, args);
  }

  /** Operands are read back as they were written, provided no padding follows by accident. */
  lemma {:induction false} OperandsRoundTrip(code: seq<Byte>, pc: nat, op: Byte, args: seq<Word>)
    requires args != [] && At(code, pc, Instr(op, args))
    requires pc + 3 * |args| + 3 <= |code| ==> code[pc + 3 * |args|] != OPCODE_PAD
    ensures pc + 3 * |args| <= |code| && OperandsAt(code, pc) == args
    decreases |args|
  {
    InstrAt(code, pc, op, args);
    InstrLength(op, args);
    if |args| == 1 {
      assert args == [args[0]];
    } else {
      PadsAt(code, pc + 3, args[1..]);
      assert Pads(args[1..]) == Instr(OPCODE_PAD, args[1..]);
      OperandsRoundTrip(code, pc + 3, OPCODE_PAD, args[1..]);
      assert args == [args[0]] + args[1..];
    }
  }

  // ---------------------------------------------------------------- skipping

  lemma {:induction false} SkipPads(code: seq<Byte>, pc: nat, args: seq<Word>, nest: nat)
    requires nest > 0 && At(code, pc + 3, Pads(args))
    ensures SkipIf(code, pc, nest) == SkipIf(code, pc + 3 * |args|, nest)
    decreases |args|
  {
    if args != [] {
      PadsAt(code, pc + 3, args);
      SkipPads(code, pc + 3, args[1..], nest);
    }
  }

  /** Skipping over one instruction of a block changes the nesting by its opcode alone. */
  function NestAfter(op: Byte, nest: nat): nat
    requires nest > 0
  {
    if op > IF_TYPE_OPCODES then nest + 1 else if op == OPCODE_ENDIF then nest - 1 else nest
  }

  lemma SkipInstr(code: seq<Byte>, pc: nat, op: Byte, args: seq<Word>, nest: nat)
    requires nest > 0 && args != [] && At(code, pc + 3, Instr(op, args))
    requires op != OPCODE_ENDEXRAIL && (op == OPCODE_ELSE ==> nest > 1) && (op == OPCODE_ENDIF ==> |args| == 1)
    ensures SkipIf(code, pc, nest) == SkipIf(code, pc + |Instr(op, args)|, NestAfter(op, nest))
  {
    InstrAt(code, pc + 3, op, args);
    InstrLength(op, args);
    if NestAfter(op, nest) > 0 {
      SkipPads(code, pc + 3, args[1..], NestAfter(op, nest));
    }
  }

  /** A compiled block is skipped as a whole: nesting returns to what it was. */
  lemma {:induction false} SkipScript(code: seq<Byte>, pc: nat, s: Script, nest: nat)
    requires ScriptOk(s) && nest > 0 && At(code, pc + 3, Compile(s))
    ensures SkipIf(code, pc, nest) == SkipIf(code, pc + |Compile(s)|, nest)
    decreases s, 0
  {
    hide SkipIf, Instr, At;
    match s
    case Nothing =>
    case Act(op, args, next) =>
      AtSplit(code, pc + 3, Instr(op, args), Compile(next));
      SkipInstr(code, pc, op, args, nest);
      SkipScript(code, pc + |Instr(op, args)|, next, nest);
    case Leave(op, args, next) =>
      AtSplit(code, pc + 3, Instr(op, args), Compile(next));
      SkipInstr(code, pc, op, args, nest);
      SkipScript(code, pc + |Instr(op, args)|, next, nest);
    case IfThen(op, args, thn, next) =>
      var rest := Instr(OPCODE_ENDIF, [0]) + Compile(next);
      AtSplit(code, pc + 3, Instr(op, args), Compile(thn) + rest);
      SkipInstr(code, pc, op, args, nest);
      SkipBranch(code, pc + |Instr(op, args)|, thn, OPCODE_ENDIF, Compile(next), nest + 1);
      SkipScript(code, pc + |Instr(op, args)| + |Compile(thn)| + |Instr(OPCODE_ENDIF, [0])|, next, nest);
    case IfElse(op, args, thn, els, next) =>
      var tail := Instr(OPCODE_ENDIF, [0]) + Compile(next);
      var elseTail := Instr(OPCODE_ELSE, [0]) + (Compile(els) + tail);
      AtSplit(code, pc + 3, Instr(op, args), Compile(thn) + elseTail);
      SkipInstr(code, pc, op, args, nest);
      var p1 := pc + |Instr(op, args)|;
      SkipBranch(code, p1, thn, OPCODE_ELSE, Compile(els) + tail, nest + 1);
      var p2 := p1 + |Compile(thn)| + |Instr(OPCODE_ELSE, [0])|;
      SkipBranch(code, p2, els, OPCODE_ENDIF, Compile(next), nest + 1);
      SkipScript(code, p2 + |Compile(els)| + |Instr(OPCODE_ENDIF, [0])|, next, nest);
  }

  /** A branch and the ELSE or ENDIF that ends it, seen from inside an outer skip. */
  lemma {:induction false} SkipBranch(code: seq<Byte>, pc: nat, branch: Script, closer: Byte,
                                      rest: seq<Byte>, nest: nat)
    requires ScriptOk(branch) && nest > 1 && closer in {OPCODE_ELSE, OPCODE_ENDIF}
    requires At(code, pc + 3, Compile(branch) + (Instr(closer, [0]) + rest))
    ensures var p := pc + |Compile(branch)| + |Instr(closer, [0])|;
            && At(code, p + 3, rest)
            && SkipIf(code, pc, nest) == SkipIf(code, p, NestAfter(closer, nest))
    decreases branch, 1
  {
    hide SkipIf, Instr, At, Compile;
    AtSplit(code, pc + 3, Compile(branch), Instr(closer, [0]) + rest);
    SkipScript(code, pc, branch, nest);
    AtSplit(code, pc + 3 + |Compile(branch)|, Instr(closer, [0]), rest);
    SkipInstr(code, pc + |Compile(branch)|, closer, [0], nest);
  }

  /** From the IF (or the ELSE) of a block, the skip stops at the instruction that ends the
      branch behind it. */
  lemma SkipFindsCloser(code: seq<Byte>, pc: nat, op: Byte, args: seq<Word>, branch: Script,
                        closer: Byte, rest: seq<Byte>)
    requires ScriptOk(branch) && args != [] && closer in {OPCODE_ELSE, OPCODE_ENDIF}
    requires At(code, pc, Instr(op, args) + (Compile(branch) + (Instr(closer, [0]) + rest)))
    ensures SkipIf(code, pc, 1) == Some(pc + |Instr(op, args)| + |Compile(branch)|)
  {
    hide SkipIf, At, Compile, Instr, Pads;
    var tail := Instr(closer, [0]) + rest;
    AtSplit(code, pc, Instr(op, args), Compile(branch) + tail);
    InstrAt(code, pc, op, args);
    InstrLength(op, args);
    SkipPads(code, pc, args[1..], 1);
    var p := pc + 3 * |args| - 3;
    AtSplit(code, p + 3, Compile(branch), tail);
    SkipScript(code, p, branch, 1);
    AtSplit(code, p + 3 + |Compile(branch)|, Instr(closer, [0]), rest);
    InstrAt(code, p + 3 + |Compile(branch)|, closer, [0]);
    SkipStops(code, p + |Compile(branch)|);
  }

  lemma SkipStops(code: seq<Byte>, pc: nat)
    requires pc + 6 <= |code| && code[pc + 3] in {OPCODE_ELSE, OPCODE_ENDIF}
    ensures SkipIf(code, pc, 1) == Some(pc + 3)
  {
  }

  // ---------------------------------------------------------------- running compiled blocks

  lemma {:induction false} RunPads(code: seq<Byte>, pc: nat, args: seq<Word>, answers: seq<Answer>)
    requires At(code, pc, Pads(args))
    ensures Machine(code, pc, answers) == Machine(code, pc + 3 * |args|, answers)
    decreases |args|
  {
    if args != [] {
      PadsAt(code, pc, args);
      RunPads(code, pc + 3, args[1..], answers);
    }
  }

  /** What stands behind a compiled block: an instruction that is not padding. */
  ghost predicate EndsClean(code: seq<Byte>, pc: nat) {
    pc + 3 <= |code| && code[pc] != OPCODE_PAD
  }

  /** Reaching the first instruction of `op args` with a clean end behind: its opcode, its
      operands, and where it leads. */
  lemma AtInstr(code: seq<Byte>, pc: nat, op: Byte, args: seq<Word>, answers: seq<Answer>)
    requires args != [] && At(code, pc, Instr(op, args)) && EndsClean(code, pc + |Instr(op, args)|)
    ensures pc + 3 <= |code| && code[pc] == op && OperandsAt(code, pc) == args
    ensures Machine(code, pc + 3, answers) == Machine(code, pc + |Instr(op, args)|, answers)
  {
    hide Machine, OperandsAt, Instr, Pads;
    InstrAt(code, pc, op, args);
    InstrLength(op, args);
    OperandsRoundTrip(code, pc, op, args);
    RunPads(code, pc + 3, args[1..], answers);
  }

  /** Running on from where an outcome fell out. */
  function Continue(o: Outcome, code: seq<Byte>, pc: nat): Outcome {
    if o.ending.Ran? then
      var rest := Machine(code, pc, o.ending.answers);
      Outcome(o.trace + rest.trace, rest.ending)
    else o
  }

  lemma ContinueBefore(e: Event, o: Outcome, code: seq<Byte>, pc: nat)
    ensures Continue(Before(e, o), code, pc) == Before(e, Continue(o, code, pc))
  {
    hide Machine;
    if o.ending.Ran? {
      var rest := Machine(code, pc, o.ending.answers);
      assert ([e] + o.trace) + rest.trace == [e] + (o.trace + rest.trace);
    }
  }

  /** If `next` is run faithfully from q to r, falling out at q means going on through it. */
  lemma ContinueAndThen(o: Outcome, next: Script, code: seq<Byte>, q: nat, r: nat)
    requires o.ending.Ran? ==>
               Machine(code, q, o.ending.answers) == Continue(Exec(next, o.ending.answers), code, r)
    ensures Continue(o, code, q) == Continue(AndThen(o, next), code, r)
  {
    hide Machine, Exec;
    if o.ending.Ran? {
      var mid := Exec(next, o.ending.answers);
      if mid.ending.Ran? {
        var rest := Machine(code, r, mid.ending.answers);
        assert (o.trace + mid.trace) + rest.trace == o.trace + (mid.trace + rest.trace);
      }
    }
  }

  /** A branch up to its ENDIF, and the block behind it. */
  lemma {:induction false} BranchToEndif(parent: Script, code: seq<Byte>, pc: nat,
                                         branch: Script, next: Script, answers: seq<Answer>)
    requires branch < parent && next < parent && ScriptOk(branch) && ScriptOk(next)
    requires At(code, pc, Compile(branch) + (Instr(OPCODE_ENDIF, [0]) + Compile(next)))
    requires EndsClean(code, pc + |Compile(branch) + (Instr(OPCODE_ENDIF, [0]) + Compile(next))|)
    ensures Machine(code, pc, answers) ==
            Continue(AndThen(Exec(branch, answers), next), code,
                     pc + |Compile(branch) + (Instr(OPCODE_ENDIF, [0]) + Compile(next))|)
    decreases parent, 0, 0
  {
    hide Machine, Exec, Instr, Compile, At, AndThen, Continue;
    var q := pc + |Compile(branch)|;
    var tail := Instr(OPCODE_ENDIF, [0]) + Compile(next);
    AtSplit(code, pc, Compile(branch), tail);
    AtSplit(code, q, Instr(OPCODE_ENDIF, [0]), Compile(next));
    InstrAt(code, q, OPCODE_ENDIF, [0]);
    InstrLength(OPCODE_ENDIF, [0]);
    Preserved(code, pc, branch, answers);
    var o := Exec(branch, answers);
    if o.ending.Ran? {
      Preserved(code, q + 3, next, o.ending.answers);
      StepEndif(code, q, o.ending.answers);
    }
    ContinueAndThen(o, next, code, q, q + 3 + |Compile(next)|);
  }

  lemma StepEndif(code: seq<Byte>, pc: nat, answers: seq<Answer>)
    requires pc + 3 <= |code| && code[pc] == OPCODE_ENDIF
    ensures Machine(code, pc, answers) == Machine(code, pc + 3, answers)
  {
  }

  lemma StepElse(code: seq<Byte>, pc: nat, q: nat, answers: seq<Answer>)
    requires pc + 3 <= |code| && code[pc] == OPCODE_ELSE && SkipIf(code, pc, 1) == Some(q)
    ensures Machine(code, pc, answers) == Machine(code, q + 3, answers)
  {
  }

  /** A branch up to its ELSE: falling out of it jumps over the other branch. */
  lemma {:induction false} BranchToElse(parent: Script, code: seq<Byte>, pc: nat, branch: Script,
                                        els: Script, next: Script, answers: seq<Answer>)
    requires branch < parent && next < parent && ScriptOk(branch) && ScriptOk(els) && ScriptOk(next)
    requires At(code, pc, Compile(branch) + (Instr(OPCODE_ELSE, [0]) + (Compile(els) + (Instr(OPCODE_ENDIF, [0]) + Compile(next)))))
    requires EndsClean(code, pc + |Compile(branch) + (Instr(OPCODE_ELSE, [0]) + (Compile(els) + (Instr(OPCODE_ENDIF, [0]) + Compile(next))))|)
    ensures Machine(code, pc, answers) ==
            Continue(AndThen(Exec(branch, answers), next), code,
                     pc + |Compile(branch) + (Instr(OPCODE_ELSE, [0]) + (Compile(els) + (Instr(OPCODE_ENDIF, [0]) + Compile(next))))|)
    decreases parent, 0, 0
  {
    hide Machine, Exec, Instr, Compile, At, AndThen, Continue, SkipIf;
    var q := pc + |Compile(branch)|;
    var endif := Instr(OPCODE_ENDIF, [0]) + Compile(next);
    var tail := Instr(OPCODE_ELSE, [0]) + (Compile(els) + endif);
    AtSplit(code, pc, Compile(branch), tail);
    SkipFindsCloser(code, q, OPCODE_ELSE, [0], els, OPCODE_ENDIF, Compile(next));
    InstrLength(OPCODE_ELSE, [0]);
    InstrLength(OPCODE_ENDIF, [0]);
    AtSplit(code, q, Instr(OPCODE_ELSE, [0]), Compile(els) + endif);
    InstrAt(code, q, OPCODE_ELSE, [0]);
    var e := q + 3 + |Compile(els)|;
    AtSplit(code, q + 3, Compile(els), endif);
    AtSplit(code, e, Instr(OPCODE_ENDIF, [0]), Compile(next));
    Preserved(code, pc, branch, answers);
    var o := Exec(branch, answers);
    if o.ending.Ran? {
      Preserved(code, e + 3, next, o.ending.answers);
      StepElse(code, q, e, o.ending.answers);
    }
    ContinueAndThen(o, next, code, q, e + 3 + |Compile(next)|);
  }

  /** The instruction at the head of a block, and a clean end behind it. */
  lemma HeadInstr(code: seq<Byte>, pc: nat, op: Byte, args: seq<Word>, rest: seq<Byte>, answers: seq<Answer>)
    requires args != [] && At(code, pc, Instr(op, args) + rest)
    requires rest != [] ==> rest[0] != OPCODE_PAD && |rest| >= 3
    requires EndsClean(code, pc + |Instr(op, args) + rest|)
    ensures pc + 3 <= |code| && code[pc] == op && OperandsAt(code, pc) == args
    ensures Machine(code, pc + 3, answers) == Machine(code, pc + |Instr(op, args)|, answers)
    ensures At(code, pc + |Instr(op, args)|, rest)
  {
    hide Machine, OperandsAt, Instr;
    AtSplit(code, pc, Instr(op, args), rest);
    var q := pc + |Instr(op, args)|;
    if rest != [] {
      assert code[q] == code[q..q + |rest|][0];
    }
    AtInstr(code, pc, op, args, answers);
  }

  lemma {:induction false} CompileHead(s: Script)
    requires ScriptOk(s)
    ensures Compile(s) != [] ==> Compile(s)[0] != OPCODE_PAD && |Compile(s)| >= 3
  {
    if s != Nothing {
      InstrLength(s.op, s.args);
      assert Instr(s.op, s.args)[0] == s.op;
    }
  }

  lemma CloserHead(closer: Byte, rest: seq<Byte>)
    requires closer != OPCODE_PAD
    ensures var c := Instr(closer, [0]) + rest; |c| >= 3 && c[0] != OPCODE_PAD
  {
  }

  lemma CompileIfThen(s: Script)
    requires s.IfThen? && ScriptOk(s)
    ensures var rest := Compile(s.thn) + (Instr(OPCODE_ENDIF, [0]) + Compile(s.next));
            Compile(s) == Instr(s.op, s.args) + rest && |rest| >= 3 && rest[0] != OPCODE_PAD
  {
    CompileHead(s.thn);
    CloserHead(OPCODE_ENDIF, Compile(s.next));
    hide Instr;
    HeadOf(Compile(s.thn), Instr(OPCODE_ENDIF, [0]) + Compile(s.next));
  }

  lemma CompileIfElse(s: Script)
    requires s.IfElse? && ScriptOk(s)
    ensures var endif := Instr(OPCODE_ENDIF, [0]) + Compile(s.next);
            var rest := Compile(s.thn) + (Instr(OPCODE_ELSE, [0]) + (Compile(s.els) + endif));
            Compile(s) == Instr(s.op, s.args) + rest && |rest| >= 3 && rest[0] != OPCODE_PAD
  {
    var tail := Compile(s.els) + (Instr(OPCODE_ENDIF, [0]) + Compile(s.next));
    CompileHead(s.thn);
    CloserHead(OPCODE_ELSE, tail);
    hide Instr;
    HeadOf(Compile(s.thn), Instr(OPCODE_ELSE, [0]) + tail);
  }

  lemma HeadOf(a: seq<Byte>, b: seq<Byte>)
    requires a != [] ==> a[0] != OPCODE_PAD && |a| >= 3
    requires b != [] ==> b[0] != OPCODE_PAD && |b| >= 3
    ensures a + b != [] ==> (a + b)[0] != OPCODE_PAD && |a + b| >= 3
  {
  }

  lemma {:induction false} PreservedAct(code: seq<Byte>, pc: nat, s: Script, answers: seq<Answer>)
    requires s.Act? && ScriptOk(s) && At(code, pc, Compile(s)) && EndsClean(code, pc + |Compile(s)|)
    ensures Machine(code, pc, answers) == Continue(Exec(s, answers), code, pc + |Compile(s)|)
    decreases s, 0, |answers|
  {
    hide At, Instr, Continue, SkipIf;
    CompileHead(s.next);
    if answers == [] {
      HeadInstr(code, pc, s.op, s.args, Compile(s.next), []);
      assert Machine(code, pc, answers) == Outcome([], Blocked);
      ContinueStopped(Outcome([], Blocked), code, pc + |Compile(s)|);
    } else if answers[0] == NotYet {
      HeadInstr(code, pc, s.op, s.args, Compile(s.next), []);
      PreservedAct(code, pc, s, answers[1..]);
    } else {
      HeadInstr(code, pc, s.op, s.args, Compile(s.next), answers[1..]);
      var q := pc + |Instr(s.op, s.args)|;
      Preserved(code, q, s.next, answers[1..]);
      ContinueBefore(Did(s.op, s.args), Exec(s.next, answers[1..]), code, pc + |Compile(s)|);
    }
  }

  lemma ContinueStopped(o: Outcome, code: seq<Byte>, pc: nat)
    requires !o.ending.Ran?
    ensures Continue(o, code, pc) == o
  {
  }

  /** How the machine takes an IF. */
  lemma StepIf(code: seq<Byte>, pc: nat, op: Byte, args: seq<Word>, answers: seq<Answer>)
    requires pc + 3 <= |code| && code[pc] == op && IsIf(op) && OperandsAt(code, pc) == args
    ensures Machine(code, pc, answers) ==
            if answers == [] then Outcome([], Blocked)
            else if answers[0] == Yes then Before(Tested(op, args, true), Machine(code, pc + 3, answers[1..]))
            else Before(Tested(op, args, false), Skipped(code, pc, answers[1..]))
  {
  }

  lemma ExecIfThen(s: Script, answers: seq<Answer>)
    requires s.IfThen?
    ensures Exec(s, answers) ==
            if answers == [] then Outcome([], Blocked)
            else if answers[0] == Yes then
              Before(Tested(s.op, s.args, true), AndThen(Exec(s.thn, answers[1..]), s.next))
            else Before(Tested(s.op, s.args, false), Exec(s.next, answers[1..]))
  {
  }

  lemma ExecIfElse(s: Script, answers: seq<Answer>)
    requires s.IfElse?
    ensures Exec(s, answers) ==
            if answers == [] then Outcome([], Blocked)
            else if answers[0] == Yes then
              Before(Tested(s.op, s.args, true), AndThen(Exec(s.thn, answers[1..]), s.next))
            else
              Before(Tested(s.op, s.args, false), AndThen(Exec(s.els, answers[1..]), s.next))
  {
  }

  lemma SkippedTo(code: seq<Byte>, pc: nat, q: nat, answers: seq<Answer>)
    requires pc + 3 <= |code| && SkipIf(code, pc, 1) == Some(q)
    ensures Skipped(code, pc, answers) == Machine(code, q + 3, answers)
  {
    hide Machine, SkipIf;
  }

  /** A condition that fails leads behind the ENDIF. */
  lemma {:induction false} SkippedIfThen(s: Script, code: seq<Byte>, pc: nat, answers: seq<Answer>)
    requires s.IfThen? && ScriptOk(s) && At(code, pc, Compile(s)) && EndsClean(code, pc + |Compile(s)|)
    requires pc + 3 <= |code|
    ensures Skipped(code, pc, answers) == Continue(Exec(s.next, answers), code, pc + |Compile(s)|)
    decreases s, 0, 0
  {
    hide At, Instr, Continue, SkipIf, Machine, Compile, Skipped, Exec;
    var op, args := s.op, s.args;
    var endif := Instr(OPCODE_ENDIF, [0]) + Compile(s.next);
    CompileIfThen(s);
    SkipFindsCloser(code, pc, op, args, s.thn, OPCODE_ENDIF, Compile(s.next));
    var q := pc + |Instr(op, args)| + |Compile(s.thn)|;
    SkippedTo(code, pc, q, answers);
    AtSplit(code, pc, Instr(op, args), Compile(s.thn) + endif);
    AtSplit(code, pc + |Instr(op, args)|, Compile(s.thn), endif);
    AtSplit(code, q, Instr(OPCODE_ENDIF, [0]), Compile(s.next));
    InstrLength(OPCODE_ENDIF, [0]);
    Preserved(code, q + 3, s.next, answers);
  }

  lemma {:induction false} PreservedIfThen(code: seq<Byte>, pc: nat, s: Script, answers: seq<Answer>)
    requires s.IfThen? && ScriptOk(s) && At(code, pc, Compile(s)) && EndsClean(code, pc + |Compile(s)|)
    ensures Machine(code, pc, answers) == Continue(Exec(s, answers), code, pc + |Compile(s)|)
    decreases s, 0, |answers|
  {
    hide At, Instr, Continue, SkipIf, Machine, Compile, Skipped, Exec, AndThen, Before;
    var op, args := s.op, s.args;
    var endif := Instr(OPCODE_ENDIF, [0]) + Compile(s.next);
    var rest := Compile(s.thn) + endif;
    var end := pc + |Compile(s)|;
    CompileIfThen(s);
    ExecIfThen(s, answers);
    HeadInstr(code, pc, op, args, rest, if answers == [] then [] else answers[1..]);
    StepIf(code, pc, op, args, answers);
    if answers == [] {
      ContinueStopped(Outcome([], Blocked), code, end);
    } else if answers[0] == Yes {
      BranchToEndif(s, code, pc + |Instr(op, args)|, s.thn, s.next, answers[1..]);
      ContinueBefore(Tested(op, args, true), AndThen(Exec(s.thn, answers[1..]), s.next), code, end);
    } else {
      SkippedIfThen(s, code, pc, answers[1..]);
      ContinueBefore(Tested(op, args, false), Exec(s.next, answers[1..]), code, end);
    }
  }

  lemma {:induction false} PreservedIfElse(code: seq<Byte>, pc: nat, s: Script, answers: seq<Answer>)
    requires s.IfElse? && ScriptOk(s) && At(code, pc, Compile(s)) && EndsClean(code, pc + |Compile(s)|)
    ensures Machine(code, pc, answers) == Continue(Exec(s, answers), code, pc + |Compile(s)|)
    decreases s, 0, |answers|
  {
    hide At, Instr, Continue, SkipIf, Machine, Compile, Skipped, Exec, AndThen, Before;
    var op, args := s.op, s.args;
    var endif := Instr(OPCODE_ENDIF, [0]) + Compile(s.next);
    var other := Instr(OPCODE_ELSE, [0]) + (Compile(s.els) + endif);
    var rest := Compile(s.thn) + other;
    var end := pc + |Compile(s)|;
    CompileIfElse(s);
    ExecIfElse(s, answers);
    HeadInstr(code, pc, op, args, rest, if answers == [] then [] else answers[1..]);
    StepIf(code, pc, op, args, answers);
    if answers == [] {
      ContinueStopped(Outcome([], Blocked), code, end);
    } else if answers[0] == Yes {
      BranchToElse(s, code, pc + |Instr(op, args)|, s.thn, s.els, s.next, answers[1..]);
      ContinueBefore(Tested(op, args, true), AndThen(Exec(s.thn, answers[1..]), s.next), code, end);
    } else {
      SkipFindsCloser(code, pc, op, args, s.thn, OPCODE_ELSE, Compile(s.els) + endif);
      var q := pc + |Instr(op, args)| + |Compile(s.thn)|;
      SkippedTo(code, pc, q, answers[1..]);
      AtSplit(code, pc + |Instr(op, args)|, Compile(s.thn), other);
      AtSplit(code, q, Instr(OPCODE_ELSE, [0]), Compile(s.els) + endif);
      InstrLength(OPCODE_ELSE, [0]);
      BranchToEndif(s, code, q + 3, s.els, s.next, answers[1..]);
      ContinueBefore(Tested(op, args, false), AndThen(Exec(s.els, answers[1..]), s.next), code, end);
    }
  }

  /** Structured control flow is preserved: wherever the bytes of a block stand, running them does
      what the block means, for every sequence of answers, and goes on behind the block exactly
      when the block falls out at its end. */
  lemma {:induction false} Preserved(code: seq<Byte>, pc: nat, s: Script, answers: seq<Answer>)
    requires ScriptOk(s) && At(code, pc, Compile(s)) && EndsClean(code, pc + |Compile(s)|)
    ensures Machine(code, pc, answers) == Continue(Exec(s, answers), code, pc + |Compile(s)|)
    decreases s, 1, |answers|
  {
    match s
    case Nothing =>
      hide Machine;
      var r := Machine(code, pc, answers);
      assert Exec(s, answers) == Outcome([], Ran(answers));
      assert [] + r.trace == r.trace;
    case Leave(op, args, next) =>
      CompileHead(next);
      hide At, Instr, SkipIf;
      HeadInstr(code, pc, op, args, Compile(next), []);
    case Act(_, _, _) => PreservedAct(code, pc, s, answers);
    case IfThen(_, _, _, _) => PreservedIfThen(code, pc, s, answers);
    case IfElse(_, _, _, _, _) => PreservedIfElse(code, pc, s, answers);
  }

  lemma TableLayout(s: Script)
    requires ScriptOk(s)
    ensures var code, n := RouteCode(s), |Compile(s)|;
            && At(code, 0, Compile(s)) && |code| == n + 6
            && code[n..] == [OPCODE_ENDTASK, 0, 0, OPCODE_ENDEXRAIL, 0, 0]
            && code[n] == OPCODE_ENDTASK && code[n + 1] == code[n + 2] == 0 && code[n + 3] == OPCODE_ENDEXRAIL
  {
    var code, n := RouteCode(s), |Compile(s)|;
    var tail := Instr(OPCODE_ENDTASK, [0]) + Instr(OPCODE_ENDEXRAIL, [0]);
    assert tail == [OPCODE_ENDTASK, 0, 0, OPCODE_ENDEXRAIL, 0, 0];
    hide Instr, Compile;
    assert code[0..n] == Compile(s) && code[n..] == tail;
    assert code[n] == tail[0] && code[n + 1] == tail[1] && code[n + 2] == tail[2] && code[n + 3] == tail[3];
  }

  lemma EndOfTable(code: seq<Byte>, pc: nat, answers: seq<Answer>)
    requires |code| == pc + 6 && code[pc] == OPCODE_ENDTASK && code[pc + 1] == code[pc + 2] == 0
    requires code[pc + 3] == OPCODE_ENDEXRAIL
    ensures Machine(code, pc, answers) == Outcome([], Left(OPCODE_ENDTASK, [0]))
  {
    assert OperandsAt(code, pc) == [0];
  }

  /** The whole table: what a task started at the top does is what the script says, and if the
      script runs out the task ends at the ENDTASK behind it. */
  lemma RouteCodePreservesMeaning(s: Script, answers: seq<Answer>)
    requires ScriptOk(s)
    ensures var o := Exec(s, answers);
            Machine(RouteCode(s), 0, answers) ==
            if o.ending.Ran? then Outcome(o.trace, Left(OPCODE_ENDTASK, [0])) else o
  {
    hide Instr, Compile, RouteCode, Machine, Exec;
    var code, n := RouteCode(s), |Compile(s)|;
    TableLayout(s);
    Preserved(code, 0, s, answers);
    EndOfTable(code, n, if Exec(s, answers).ending.Ran? then Exec(s, answers).ending.answers else []);
  }
}
