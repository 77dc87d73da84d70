/** The interpreter objects of EXRAIL2.cpp: lookup lists filled by scanning the table, and tasks
    that update their program counter and call stack in place.  Each method is proved against the
    function of `ExrailCode` or `ExrailTask` that gives its meaning. */
module ExrailInterpreter {
  import opened ExrailCode
  import opened ExrailTask

  class LookList {
    const lookupArray: array<int>
    const resultArray: array<int>
    const size: nat
    var loaded: nat

    ghost predicate Valid()
      reads this, lookupArray, resultArray
    {
      && lookupArray != resultArray
      && lookupArray.Length == resultArray.Length == size
      && loaded <= size
    }

    ghost function Contents(): seq<Entry>
      requires Valid()
      reads this, lookupArray, resultArray
    {
      seq(loaded, i requires 0 <= i < loaded && Valid()
                    reads this, lookupArray, resultArray
                  => Entry(lookupArray[i], resultArray[i]))
    }

    constructor (n: nat)
      ensures Valid() && size == n && Contents() == []
      ensures fresh(lookupArray) && fresh(resultArray)
    {
      size, loaded := n, 0;
      lookupArray := new int[n];
      resultArray := new int[n];
    }

    /** Adds an entry, or forgets it if the list is full. */
    method Add(lookup: int, result: int)
      requires Valid()
      modifies this`loaded, lookupArray, resultArray
      ensures Valid()
      ensures Contents() == if old(loaded) == size then old(Contents()) else old(Contents()) + [Entry(lookup, result)]
    {
      if loaded == size {
        return;
      }
      lookupArray[loaded] := lookup;
      resultArray[loaded] := result;
      loaded := loaded + 1;
    }

    /** The first match.  The source scans the whole array, which is full once loaded. */
    method Find(value: int) returns (r: Option<int>)
      requires Valid() && loaded == size
      ensures r == FindIn(Contents(), value)
    {
      var i := 0;
      assert Contents()[0..] == Contents();
      while i < size
        invariant i <= size
        invariant FindIn(Contents(), value) == FindIn(Contents()[i..], value)
      {
        if lookupArray[i] == value {
          return Some(resultArray[i]);
        }
        assert Contents()[i..][1..] == Contents()[i + 1..];
        i := i + 1;
      }
      return None;
    }
  }

  /** How many instructions with these opcodes the table holds from pc on. */
  lemma {:induction false} EntriesStep(code: seq<Byte>, pc: nat, ops: set<Byte>)
    requires pc + 3 <= |code| && code[pc] != OPCODE_ENDEXRAIL
    ensures Entries(code, pc, ops) ==
            (if code[pc] in ops then [Entry(ToInt16(WordAt(code, pc)), ToInt16(pc))] else []) +
            Entries(code, pc + 3, ops)
  {
  }

  /** Two scans of the table: one to size the list, one to fill it. */
  method LookListLoader(code: seq<Byte>, ops: set<Byte>) returns (list: LookList)
    requires CodeOk(code)
    ensures list.Valid() && list.loaded == list.size && list.Contents() == Entries(code, 0, ops)
  {
    hide RandomsFit, Entries;
    var count := 0;
    var pc := 0;
    while code[pc] != OPCODE_ENDEXRAIL
      invariant PcOk(code, pc)
      invariant count + |Entries(code, pc, ops)| == |Entries(code, 0, ops)|
      decreases |code| - pc
    {
      EntriesStep(code, pc, ops);
      if code[pc] in ops {
        count := count + 1;
      }
      NextInside(code, pc);
      pc := pc + 3;
    }
    EntriesEnd(code, pc, ops);
    list := new LookList(count);
    pc := 0;
    assert [] + Entries(code, 0, ops) == Entries(code, 0, ops);
    while code[pc] != OPCODE_ENDEXRAIL
      invariant PcOk(code, pc) && fresh(list.lookupArray) && fresh(list.resultArray)
      invariant list.Valid() && list.size == |Entries(code, 0, ops)|
      invariant list.Contents() + Entries(code, pc, ops) == Entries(code, 0, ops)
      modifies list, list.lookupArray, list.resultArray
      decreases |code| - pc
    {
      EntriesStep(code, pc, ops);
      if code[pc] in ops {
        list.Add(ToInt16(WordAt(code, pc)), ToInt16(pc));
      }
      NextInside(code, pc);
      pc := pc + 3;
    }
    EntriesEnd(code, pc, ops);
  }

  lemma EntriesEnd(code: seq<Byte>, pc: nat, ops: set<Byte>)
    requires pc < |code| && code[pc] == OPCODE_ENDEXRAIL
    ensures Entries(code, pc, ops) == []
  {
  }

  /** The route lookup: routes and automations, sequences chained behind. */
  class RouteLookup {
    const routes: LookList
    const sequences: LookList

    ghost predicate Valid(code: seq<Byte>)
      reads routes, routes.lookupArray, routes.resultArray,
            sequences, sequences.lookupArray, sequences.resultArray
    {
      && routes.Valid() && routes.loaded == routes.size
      && routes.Contents() == Entries(code, 0, {OPCODE_ROUTE, OPCODE_AUTOMATION})
      && sequences.Valid() && sequences.loaded == sequences.size
      && sequences.Contents() == Entries(code, 0, {OPCODE_SEQUENCE})
    }

    constructor (code: seq<Byte>)
      requires CodeOk(code)
      ensures Valid(code)
    {
      var r := LookListLoader(code, {OPCODE_ROUTE, OPCODE_AUTOMATION});
      var s := LookListLoader(code, {OPCODE_SEQUENCE});
      routes, sequences := r, s;
    }

    method Find(ghost code: seq<Byte>, id: int) returns (pc: int)
      requires Valid(code)
      ensures pc == FindRoute(code, id)
    {
      var r := routes.Find(id);
      if r.Some? {
        return r.value;
      }
      r := sequences.Find(id);
      return if r.Some? then r.value else -1;
    }
  }

  class Rmft2 {
    const code: seq<Byte>
    const lookup: RouteLookup
    var progCounter: nat
    const callStack: array<nat>
    var stackDepth: nat
    var alive: bool

    ghost function View(): Task
      requires stackDepth <= callStack.Length
      reads this, callStack
    {
      Task(progCounter, callStack[..stackDepth], alive)
    }

    ghost predicate Valid()
      reads this, callStack, lookup.routes, lookup.routes.lookupArray, lookup.routes.resultArray,
            lookup.sequences, lookup.sequences.lookupArray, lookup.sequences.resultArray
    {
      && CodeOk(code) && lookup.Valid(code)
      && callStack.Length == MAX_STACK_DEPTH && stackDepth <= MAX_STACK_DEPTH
      && TaskOk(code, View())
    }

    constructor (routeCode: seq<Byte>, table: RouteLookup, progCtr: nat)
      requires CodeOk(routeCode) && table.Valid(routeCode) && PcOk(routeCode, progCtr)
      ensures Valid() && code == routeCode && View() == Task(progCtr, [], true)
    {
      code, lookup, progCounter := routeCode, table, progCtr;
      callStack := new nat[MAX_STACK_DEPTH];
      stackDepth, alive := 0, true;
    }

    /** Skips to the ELSE or ENDIF that closes the current block; false if the table ends first. */
    method SkipIfBlock() returns (ok: bool)
      requires CodeOk(code) && PcOk(code, progCounter) && code[progCounter] != OPCODE_ENDEXRAIL
      modifies this`progCounter, this`alive
      ensures ok <==> SkipIf(code, old(progCounter), 1).Some?
      ensures ok ==> progCounter == SkipIf(code, old(progCounter), 1).value && alive == old(alive)
      ensures !ok ==> !alive
    {
      hide RandomsFit;
      ghost var start := progCounter;
      var nest := 1;
      while nest > 0
        invariant nest >= 0 && PcOk(code, progCounter) && alive == old(alive)
        invariant SkipIf(code, progCounter, nest) == SkipIf(code, start, 1)
        invariant code[progCounter] != OPCODE_ENDEXRAIL
        decreases |code| - progCounter, nest
      {
        NextInside(code, progCounter);
        progCounter := progCounter + 3;
        var opcode := code[progCounter];
        if opcode > IF_TYPE_OPCODES {
          nest := nest + 1;
        } else if opcode == OPCODE_ENDEXRAIL {
          alive := false;
          return false;
        } else if opcode == OPCODE_ENDIF {
          nest := nest - 1;
        } else if opcode == OPCODE_ELSE {
          if nest == 1 {
            nest := 0;
          }
        }
      }
      return true;
    }

    method Kill()
      modifies this`alive
      ensures !alive
    {
      alive := false;
    }

    method JumpTo(route: Word)
      requires Valid() && alive
      modifies this`progCounter, this`alive
      ensures View() == Jump(code, old(View()), route)
    {
      var pc := lookup.Find(code, ToInt16(route));
      if pc < 0 {
        Kill();
      } else {
        progCounter := pc;
      }
    }

    method CallTo(route: Word, back: nat)
      requires Valid() && alive && PcOk(code, back)
      modifies this`progCounter, this`alive, this`stackDepth, callStack
      ensures stackDepth <= MAX_STACK_DEPTH && View() == Call(code, old(View()), route, back)
    {
      if stackDepth == MAX_STACK_DEPTH {
        Kill();
        return;
      }
      callStack[stackDepth] := back;
      stackDepth := stackDepth + 1;
      assert callStack[..stackDepth] == old(callStack[..stackDepth]) + [back];
      var pc := lookup.Find(code, ToInt16(route));
      if pc < 0 {
        Kill();
      } else {
        progCounter := pc;
      }
    }

    /** One turn of the task.  `answer` stands for sensors and devices, `millis` for the clock.
        A killed task is gone, so nothing is said about its counter. */
    method Loop2(input: Input)
      requires Valid() && alive
      modifies this`progCounter, this`alive, this`stackDepth, callStack
      ensures Valid() && alive == StepTask(code, old(View()), input).alive
      ensures alive ==> View() == StepTask(code, old(View()), input)
    {
      hide SkipIf, FindRoute, RandomsFit;
      StepKeepsTask(code, View(), input);
      var opcode := code[progCounter];
      var operand := WordAt(code, progCounter);
      var skipIf := false;
      if opcode == OPCODE_FOLLOW {
        JumpTo(operand);
        return;
      } else if opcode == OPCODE_CALL {
        NextInside(code, progCounter);
        CallTo(operand, progCounter + 3);
        return;
      } else if opcode == OPCODE_RANDOM_FOLLOW {
        JumpTo(Chosen(code, progCounter, input.millis));
        return;
      } else if opcode == OPCODE_RANDOM_CALL {
        BackInside(code, progCounter);
        CallTo(Chosen(code, progCounter, input.millis), progCounter + 3 * (Choices(code, progCounter) + 1));
        return;
      } else if opcode == OPCODE_RETURN {
        if stackDepth == 0 {
          Kill();
          return;
        }
        stackDepth := stackDepth - 1;
        progCounter := callStack[stackDepth];
        return;
      } else if opcode in {OPCODE_ENDTASK, OPCODE_ENDEXRAIL, OPCODE_KILLALL} || IsUnknown(opcode) {
        Kill();
        return;
      } else if opcode == OPCODE_ELSE {
        skipIf := true;
      } else if IsIf(opcode) {
        skipIf := input.answer != Yes;
      } else if IsAction(opcode) && input.answer == NotYet {
        return;
      }
      if skipIf {
        var ok := SkipIfBlock();
        if !ok {
          return;
        }
      }
      progCounter := progCounter + 3;
    }
  }
}
