/**
 * The execution engine as pure functions on a machine value: the register
 * file, the program counter, the halt flag and the cache with its backing
 * store. Every handler first takes its operands apart (indexing, then the
 * register and integer parsers, in the order the engine does) and only then
 * changes state, so a fault leaves the machine as it was apart from the
 * program counter, which the step advances before dispatch.
 */
module Semantics {
  import opened Outcomes
  import opened Tokens
  import opened Memory
  import opened Caching

  /** The instructions that have a handler. */
  datatype Opcode = ADD | ADDI | SUB | SLT | BNE | J | JAL | LW | SW | CACHE | HALT

  /** The mnemonic naming an opcode's handler. */
  function Name(op: Opcode): string {
    match op
    case ADD => "ADD"
    case ADDI => "ADDI"
    case SUB => "SUB"
    case SLT => "SLT"
    case BNE => "BNE"
    case J => "J"
    case JAL => "JAL"
    case LW => "LW"
    case SW => "SW"
    case CACHE => "CACHE"
    case HALT => "HALT"
  }

  /** The engine's _op_ methods by the mnemonic that names them: what getattr finds. */
  const Handlers: map<string, Opcode> := map[
    "ADD" := ADD, "ADDI" := ADDI, "SUB" := SUB, "SLT" := SLT, "BNE" := BNE, "J" := J,
    "JAL" := JAL, "LW" := LW, "SW" := SW, "CACHE" := CACHE, "HALT" := HALT]

  /** The handler a mnemonic dispatches to, if there is one by exactly that name. */
  function Decode(mnemonic: string): Option<Opcode> {
    if mnemonic in Handlers then Some(Handlers[mnemonic]) else None
  }

  /** Every handler is found under its own name, and under no other. */
  lemma HandlersByName()
    ensures forall op :: Name(op) in Handlers && Handlers[Name(op)] == op
    ensures forall mnemonic :: mnemonic in Handlers ==> Name(Handlers[mnemonic]) == mnemonic
  {
    forall op ensures Name(op) in Handlers && Handlers[Name(op)] == op {
      match op
      case ADD =>
      case ADDI =>
      case SUB =>
      case SLT =>
      case BNE =>
      case J =>
      case JAL =>
      case LW =>
      case SW =>
      case CACHE =>
      case HALT =>
    }
    assert Handlers.Keys == {"ADD", "ADDI", "SUB", "SLT", "BNE", "J", "JAL", "LW", "SW", "CACHE", "HALT"};
  }

  /** A mnemonic dispatches to an opcode exactly when it is that opcode's name. */
  lemma DecodeExactly(mnemonic: string, op: Opcode)
    ensures Decode(mnemonic) == Some(op) <==> Name(op) == mnemonic
  {
    HandlersByName();
  }

  datatype Machine = Machine(registers: map<Register, int>, pc: int, halted: bool, cache: CacheState)

  /** R0..R7, all zero. */
  function InitialRegisters(): map<Register, int> {
    map["R0" := 0, "R1" := 0, "R2" := 0, "R3" := 0, "R4" := 0, "R5" := 0, "R6" := 0, "R7" := 0]
  }

  /** A register's value; a name never written reads as 0. */
  function ReadReg(registers: map<Register, int>, r: Register): int {
    if r in registers then registers[r] else 0
  }

  /** A register write; writes to R0 are discarded. */
  function WriteReg(registers: map<Register, int>, r: Register, value: int): map<Register, int> {
    if r == "R0" then registers else registers[r := value]
  }

  /** A write is seen at its register unless that is R0, and nowhere else. */
  lemma ReadAfterWriteReg(registers: map<Register, int>, r: Register, value: int, q: Register)
    ensures ReadReg(WriteReg(registers, r, value), q)
        == if q == r && r != "R0" then value else ReadReg(registers, q)
  {
  }

  /** reset: every register present is zeroed (and no other is added), the counter is 0, the halt flag clear. */
  function ResetMachine(m: Machine): (r: Machine)
    ensures r.registers.Keys == m.registers.Keys && r.cache == m.cache
    ensures forall q :: ReadReg(r.registers, q) == 0
    ensures r.pc == 0 && !r.halted
  {
    m.(registers := map k | k in m.registers :: 0, pc := 0, halted := false)
  }

  /** The machine a new engine starts as, in front of the given cache. */
  function Initial(cache: CacheState): Machine {
    Machine(InitialRegisters(), 0, false, cache)
  }

  /** R0 reads as zero and the cache is empty whenever it is disabled. */
  predicate Sound(m: Machine) {
    ReadReg(m.registers, "R0") == 0 && Coherent(m.cache)
  }

  /** A new engine, and an engine just reset, is sound when its cache is. */
  lemma InitialSound(cache: CacheState, m: Machine)
    requires Coherent(cache) && Coherent(m.cache)
    ensures Sound(Initial(cache)) && Sound(ResetMachine(m))
  {
    assert ReadReg(ResetMachine(m).registers, "R0") == 0;
  }

  /** program[pc], with Python's negative indices counting from the end. */
  function Fetch(program: seq<Instruction>, pc: int): (r: Result<Instruction>)
    ensures r.Ok? <==> -|program| <= pc < |program|
    ensures 0 <= pc < |program| ==> r == Ok(program[pc])
    ensures r.Err? ==> r.fault == IndexError
  {
    if 0 <= pc < |program| then Ok(program[pc])
    else if -|program| <= pc < 0 then Ok(program[|program| + pc])
    else Err(IndexError)
  }

  /** ops[i] for a non-negative i. */
  function Operand(ops: seq<string>, i: nat): Result<string> {
    if i < |ops| then Ok(ops[i]) else Err(IndexError)
  }

  /** The registers named by the tokens, parsed front to back; the first bad token's fault. */
  function ParseRegisters(tokens: seq<string>): (r: Result<seq<Register>>)
    ensures r.Ok? <==> forall i :: 0 <= i < |tokens| ==> ParseRegister(tokens[i]).Ok?
    ensures r.Ok? ==> |r.value| == |tokens| && forall i :: 0 <= i < |tokens| ==> Ok(r.value[i]) == ParseRegister(tokens[i])
  {
    if tokens == [] then Ok([])
    else
      var head :- ParseRegister(tokens[0]);
      var tail :- ParseRegisters(tokens[1..]);
      assert forall i :: 1 <= i < |tokens| ==> tokens[i] == tokens[1..][i - 1];
      Ok([head] + tail)
  }

  /**
   * rd, rs, rt = map(parse_register, ops): the unpacking pulls at most four
   * values, parsing each as it goes, and then fails unless it got exactly three.
   */
  function RegisterTriple(ops: seq<string>): Result<(Register, Register, Register)> {
    var regs :- ParseRegisters(ops[..if |ops| < 4 then |ops| else 4]);
    if |regs| != 3 then Err(ValueError(OperandCount)) else Ok((regs[0], regs[1], regs[2]))
  }

  /** The unpacking succeeds exactly on three register names, and gives their parses in order. */
  lemma RegisterTripleOk(ops: seq<string>)
    ensures RegisterTriple(ops).Ok? <==> |ops| == 3 && forall i :: 0 <= i < 3 ==> ParseRegister(ops[i]).Ok?
    ensures RegisterTriple(ops).Ok? ==>
      var t := RegisterTriple(ops).value;
      Ok(t.0) == ParseRegister(ops[0]) && Ok(t.1) == ParseRegister(ops[1]) && Ok(t.2) == ParseRegister(ops[2])
  {
    var n := if |ops| < 4 then |ops| else 4;
    assert forall i :: 0 <= i < n ==> ops[..n][i] == ops[i];
    if |ops| == 3 {
      assert ops[..n] == ops;
    }
  }

  /** Parsing stops at the first bad token: after good tokens, the fault is the rest's. */
  lemma {:induction false} ParseRegistersAfterGood(good: seq<string>, rest: seq<string>)
    requires forall i :: 0 <= i < |good| ==> ParseRegister(good[i]).Ok?
    requires ParseRegisters(rest).Err?
    ensures ParseRegisters(good + rest) == Err(ParseRegisters(rest).fault)
    decreases |good|
  {
    if good != [] {
      assert (good + rest)[0] == good[0];
      assert (good + rest)[1..] == good[1..] + rest;
      ParseRegistersAfterGood(good[1..], rest);
    } else {
      assert good + rest == rest;
    }
  }

  /** A fourth operand is parsed before the count is checked, so a bad fourth register is what is reported. */
  lemma RegisterTripleFourth(a: string, b: string, c: string, d: string, rest: seq<string>)
    requires ParseRegister(a).Ok? && ParseRegister(b).Ok? && ParseRegister(c).Ok?
    ensures RegisterTriple([a, b, c, d] + rest)
        == if ParseRegister(d).Ok? then Err(ValueError(OperandCount)) else Err(ParseRegister(d).fault)
  {
    var ops := [a, b, c, d] + rest;
    var four := [a, b, c, d];
    assert ops[..4] == four;
    if ParseRegister(d).Ok? {
      assert forall i :: 0 <= i < 4 ==> ParseRegister(four[i]).Ok?;
    } else {
      assert ParseRegisters([d]) == Err(ParseRegister(d).fault);
      assert four == [a, b, c] + [d];
      ParseRegistersAfterGood([a, b, c], [d]);
    }
  }

  /** The value ADD, SUB and SLT compute from their two source registers. */
  function Alu(op: Opcode, a: int, b: int): int
    requires op in {ADD, SUB, SLT}
  {
    match op
    case ADD => a + b
    case SUB => a - b
    case _ => if a < b then 1 else 0
  }

  /** ADD, SUB, SLT rd, rs, rt */
  function ExecAlu(op: Opcode, ops: seq<string>, m: Machine): Result<Machine>
    requires op in {ADD, SUB, SLT}
  {
    var t :- RegisterTriple(ops);
    Ok(m.(registers := WriteReg(m.registers, t.0, Alu(op, ReadReg(m.registers, t.1), ReadReg(m.registers, t.2)))))
  }

  /** ADDI rt, rs, imm: the three operands are indexed first, then parsed in order. */
  function ExecAddi(ops: seq<string>, m: Machine): Result<Machine> {
    if |ops| < 3 then Err(IndexError)
    else
      var rt :- ParseRegister(ops[0]);
      var rs :- ParseRegister(ops[1]);
      var imm :- ParseInt(ops[2]);
      Ok(m.(registers := WriteReg(m.registers, rt, ReadReg(m.registers, rs) + imm)))
  }

  /** BNE rs, rt, offset: taken, the offset is added to the already advanced counter. */
  function ExecBne(ops: seq<string>, m: Machine): Result<Machine> {
    if |ops| < 3 then Err(IndexError)
    else
      var rs :- ParseRegister(ops[0]);
      var rt :- ParseRegister(ops[1]);
      var offset :- ParseInt(ops[2]);
      Ok(if ReadReg(m.registers, rs) != ReadReg(m.registers, rt) then m.(pc := m.pc + offset) else m)
  }

  /** J target: an absolute instruction index. */
  function ExecJump(ops: seq<string>, m: Machine): Result<Machine> {
    var text :- Operand(ops, 0);
    var target :- ParseInt(text);
    Ok(m.(pc := target))
  }

  /** JAL target: R7 takes the already advanced counter, then the jump. */
  function ExecJal(ops: seq<string>, m: Machine): Result<Machine> {
    var text :- Operand(ops, 0);
    var target :- ParseInt(text);
    Ok(m.(registers := WriteReg(m.registers, "R7", m.pc), pc := target))
  }

  /** The register and effective address of LW/SW rt, offset(rs), parsed in the engine's order. */
  function MemoryOperands(ops: seq<string>, registers: map<Register, int>): Result<(Register, int)> {
    var first :- Operand(ops, 0);
    var rt :- ParseRegister(first);
    var second :- Operand(ops, 1);
    var operand :- ParseMemOperand(second);
    Ok((rt, ReadReg(registers, operand.1) + operand.0))
  }

  /** When both operands parse, the target register and the address rs + offset. */
  lemma MemoryOperandsOk(ops: seq<string>, m: Machine)
    requires |ops| >= 2 && ParseRegister(ops[0]).Ok? && ParseMemOperand(ops[1]).Ok?
    ensures var operand := ParseMemOperand(ops[1]).value;
      MemoryOperands(ops, m.registers) == Ok((ParseRegister(ops[0]).value, ReadReg(m.registers, operand.1) + operand.0))
  {
  }

  /** LW rt, offset(rs): rt takes the value the cache reads at rs + offset. */
  function ExecLoad(ops: seq<string>, m: Machine): Result<Machine> {
    var target :- MemoryOperands(ops, m.registers);
    var (cache, value) := CacheRead(m.cache, target.1);
    Ok(m.(cache := cache, registers := WriteReg(m.registers, target.0, value)))
  }

  /** SW rt, offset(rs): the cache writes rt's value at rs + offset. */
  function ExecStore(ops: seq<string>, m: Machine): Result<Machine> {
    var target :- MemoryOperands(ops, m.registers);
    Ok(m.(cache := CacheWrite(m.cache, target.1, ReadReg(m.registers, target.0))))
  }

  /** CACHE code: the cache's set_mode. */
  function ExecCache(ops: seq<string>, m: Machine): Result<Machine> {
    var text :- Operand(ops, 0);
    var code :- ParseInt(text);
    Ok(m.(cache := CacheSetMode(m.cache, code)))
  }

  /** HALT: the engine stops. */
  function ExecHalt(ops: seq<string>, m: Machine): Result<Machine> {
    Ok(m.(halted := true))
  }

  /**
   * The _op_ method found for an opcode, as a function of the operand tokens
   * and of the machine whose counter has already been advanced.
   */
  function Handler(op: Opcode): (seq<string>, Machine) -> Result<Machine> {
    match op
    case ADD => (ops, m) => ExecAlu(ADD, ops, m)
    case SUB => (ops, m) => ExecAlu(SUB, ops, m)
    case SLT => (ops, m) => ExecAlu(SLT, ops, m)
    case ADDI => ExecAddi
    case BNE => ExecBne
    case J => ExecJump
    case JAL => ExecJal
    case LW => ExecLoad
    case SW => ExecStore
    case CACHE => ExecCache
    case HALT => ExecHalt
  }

  /** A handler applied to the machine whose counter has already been advanced. */
  function Execute(op: Opcode, ops: seq<string>, m: Machine): Result<Machine> {
    Handler(op)(ops, m)
  }

  /** The machine after a handler and the exception it raised: a failed handler changed nothing. */
  function Settle(r: Result<Machine>, m: Machine): (Machine, Option<Fault>) {
    match r
    case Ok(n) => (n, None)
    case Err(f) => (m, Some(f))
  }

  /** step: fetch, advance the counter, dispatch on the mnemonic. */
  function Step(program: seq<Instruction>, m: Machine): (Machine, Option<Fault>) {
    match Fetch(program, m.pc)
    case Err(f) => (m, Some(f))
    case Ok(ins) =>
      var next := m.(pc := m.pc + 1);
      match Decode(ins.mnemonic)
      case None => (next, Some(NotImplementedError(ins.mnemonic)))
      case Some(op) => Settle(Execute(op, ins.operands, next), next)
  }

  /** A failed step changes nothing but the counter, and that only once the instruction was fetched. */
  lemma StepFault(program: seq<Instruction>, m: Machine)
    requires Step(program, m).1.Some?
    ensures Step(program, m).0 == if Fetch(program, m.pc).Ok? then m.(pc := m.pc + 1) else m
  {
  }

  /** Only an instruction that no handler implements raises NotImplementedError, naming its mnemonic. */
  lemma StepNotImplemented(program: seq<Instruction>, m: Machine)
    requires Fetch(program, m.pc).Ok?
    ensures var ins := Fetch(program, m.pc).value;
      Decode(ins.mnemonic).None? <==> Step(program, m).1 == Some(NotImplementedError(ins.mnemonic))
  {
    var ins := Fetch(program, m.pc).value;
    var next := m.(pc := m.pc + 1);
    match Decode(ins.mnemonic)
    case None =>
    case Some(op) =>
      if Execute(op, ins.operands, next).Err? {
        ExecuteFaults(op, ins.operands, next);
      }
  }

  /** The exceptions a handler raises: ValueError or IndexError, never NotImplementedError. */
  lemma ExecuteFaults(op: Opcode, ops: seq<string>, m: Machine)
    requires Execute(op, ops, m).Err?
    ensures Execute(op, ops, m).fault.ValueError? || Execute(op, ops, m).fault == IndexError
  {
    match op
    case ADD => TripleFault(ops);
    case SUB => TripleFault(ops);
    case SLT => TripleFault(ops);
    case ADDI =>
    case BNE =>
    case J =>
    case JAL =>
    case LW => MemoryOperandsFault(ops, m);
    case SW => MemoryOperandsFault(ops, m);
    case CACHE =>
    case HALT =>
  }

  lemma {:induction false} RegistersFault(tokens: seq<string>)
    requires ParseRegisters(tokens).Err?
    ensures ParseRegisters(tokens).fault == ValueError(NotARegister)
    decreases |tokens|
  {
    if ParseRegister(tokens[0]).Ok? {
      RegistersFault(tokens[1..]);
    }
  }

  lemma TripleFault(ops: seq<string>)
    requires RegisterTriple(ops).Err?
    ensures RegisterTriple(ops).fault.ValueError?
  {
    var n := if |ops| < 4 then |ops| else 4;
    if ParseRegisters(ops[..n]).Err? {
      RegistersFault(ops[..n]);
    }
  }

  lemma MemoryOperandsFault(ops: seq<string>, m: Machine)
    requires MemoryOperands(ops, m.registers).Err?
    ensures MemoryOperands(ops, m.registers).fault.ValueError? || MemoryOperands(ops, m.registers).fault == IndexError
  {
    if |ops| >= 2 && ParseRegister(ops[0]).Ok? && ParseMemOperand(ops[1]).Err? {
      var t := Text.Strip(ops[1]);
      if '(' in t && Text.EndsWith(t, ')') {
        var i := Text.FirstIndex(t, '(');
        MemOperandFieldsFault(t[..i], DropLast(t[i + 1..]));
      }
    }
  }

  /** ADD, SUB and SLT write rd (unless it is R0) with the result from rs and rt, and change nothing else. */
  lemma AluEffect(op: Opcode, ops: seq<string>, m: Machine, q: Register)
    requires op in {ADD, SUB, SLT}
    requires RegisterTriple(ops).Ok?
    ensures var t := RegisterTriple(ops).value;
      var r := ExecAlu(op, ops, m);
      && r.Ok? && r.value.pc == m.pc && r.value.halted == m.halted && r.value.cache == m.cache
      && ReadReg(r.value.registers, q)
        == (if q == t.0 && t.0 != "R0" then Alu(op, ReadReg(m.registers, t.1), ReadReg(m.registers, t.2)) else ReadReg(m.registers, q))
  {
    var t := RegisterTriple(ops).value;
    ReadAfterWriteReg(m.registers, t.0, Alu(op, ReadReg(m.registers, t.1), ReadReg(m.registers, t.2)), q);
  }

  /** SLT writes 1 exactly when rs is less than rt, else 0. */
  lemma SetLessThan(a: int, b: int)
    ensures Alu(SLT, a, b) in {0, 1}
    ensures Alu(SLT, a, b) == 1 <==> a < b
  {
  }

  /** ADDI succeeds exactly on three operands that parse, and then writes rs + imm into rt. */
  lemma AddiEffect(ops: seq<string>, m: Machine, q: Register)
    ensures ExecAddi(ops, m).Ok?
        <==> |ops| >= 3 && ParseRegister(ops[0]).Ok? && ParseRegister(ops[1]).Ok? && ParseInt(ops[2]).Ok?
    ensures ExecAddi(ops, m).Ok? ==>
      var rt, rs, imm := ParseRegister(ops[0]).value, ParseRegister(ops[1]).value, ParseInt(ops[2]).value;
      var n := ExecAddi(ops, m).value;
      && n.pc == m.pc && n.halted == m.halted && n.cache == m.cache
      && ReadReg(n.registers, q) == (if q == rt && rt != "R0" then ReadReg(m.registers, rs) + imm else ReadReg(m.registers, q))
  {
    if ExecAddi(ops, m).Ok? {
      var rt, rs, imm := ParseRegister(ops[0]).value, ParseRegister(ops[1]).value, ParseInt(ops[2]).value;
      ReadAfterWriteReg(m.registers, rt, ReadReg(m.registers, rs) + imm, q);
    }
  }

  /** BNE moves the counter by the offset exactly when its registers differ, and changes nothing else. */
  lemma BneEffect(ops: seq<string>, m: Machine)
    requires ExecBne(ops, m).Ok?
    ensures var rs, rt, offset := ParseRegister(ops[0]).value, ParseRegister(ops[1]).value, ParseInt(ops[2]).value;
      ExecBne(ops, m).value
        == m.(pc := if ReadReg(m.registers, rs) != ReadReg(m.registers, rt) then m.pc + offset else m.pc)
  {
  }

  /** LW gives rt what a read of the cache at rs + offset observes, and changes nothing a later read observes. */
  lemma LoadEffect(ops: seq<string>, m: Machine, q: Register, a: int)
    requires Coherent(m.cache)
    requires ExecLoad(ops, m).Ok?
    ensures var target := MemoryOperands(ops, m.registers).value;
      var n := ExecLoad(ops, m).value;
      && n.pc == m.pc && n.halted == m.halted
      && ReadReg(n.registers, q) == (if q == target.0 && q != "R0" then View(m.cache, target.1) else ReadReg(m.registers, q))
      && View(n.cache, a) == View(m.cache, a)
      && n.cache.memory == m.cache.memory
  {
    var target := MemoryOperands(ops, m.registers).value;
    ReadObservesView(m.cache, target.1);
    ReadAfterWriteReg(m.registers, target.0, CacheRead(m.cache, target.1).1, q);
  }

  /** SW makes a later read at rs + offset observe rt's value, every other address as before, and leaves the registers. */
  lemma StoreEffect(ops: seq<string>, m: Machine, a: int)
    requires Coherent(m.cache)
    requires ExecStore(ops, m).Ok?
    ensures var target := MemoryOperands(ops, m.registers).value;
      var n := ExecStore(ops, m).value;
      && n.pc == m.pc && n.halted == m.halted && n.registers == m.registers
      && View(n.cache, a) == (if a == target.1 then ReadReg(m.registers, target.0) else View(m.cache, a))
  {
    var target := MemoryOperands(ops, m.registers).value;
    WriteUpdatesView(m.cache, target.1, ReadReg(m.registers, target.0));
  }

  /** Only BNE, J and JAL move the counter a handler is given. */
  lemma ExecuteKeepsCounter(op: Opcode, ops: seq<string>, m: Machine)
    requires op !in {BNE, J, JAL}
    ensures Execute(op, ops, m).Ok? ==> Execute(op, ops, m).value.pc == m.pc
  {
    match op
    case ADD =>
    case SUB =>
    case SLT =>
    case ADDI =>
    case LW =>
    case SW =>
    case CACHE =>
    case HALT =>
  }

  /** A step that is not a branch or a jump, and does not fail, moves to the next instruction. */
  lemma StepFallsThrough(program: seq<Instruction>, m: Machine)
    requires 0 <= m.pc < |program|
    requires Decode(program[m.pc].mnemonic).Some? && Decode(program[m.pc].mnemonic).value !in {BNE, J, JAL}
    ensures Step(program, m).0.pc == m.pc + 1
  {
    var ins, next := program[m.pc], Advanced(m);
    var op := Decode(ins.mnemonic).value;
    assert Step(program, m) == Settle(Execute(op, ins.operands, next), next);
    ExecuteKeepsCounter(op, ins.operands, next);
  }

  /** HALT sets the halt flag and changes nothing else. */
  lemma HaltStops(program: seq<Instruction>, m: Machine)
    requires 0 <= m.pc < |program| && program[m.pc].mnemonic == "HALT"
    ensures Step(program, m) == (m.(pc := m.pc + 1, halted := true), None)
  {
    assert Decode("HALT") == Some(HALT);
  }

  /** The machine a step hands to the handler: the counter already advanced past the fetched instruction. */
  function Advanced(m: Machine): Machine {
    m.(pc := m.pc + 1)
  }

  /** A fetched instruction whose mnemonic names a handler runs that handler on the advanced machine. */
  lemma StepDispatches(program: seq<Instruction>, m: Machine, op: Opcode)
    requires 0 <= m.pc < |program| && program[m.pc].mnemonic == Name(op)
    ensures Step(program, m) == Settle(Execute(op, program[m.pc].operands, Advanced(m)), Advanced(m))
  {
    DecodeExactly(Name(op), op);
  }

  /** ADD, SUB, SLT rd, rs, rt: rd takes the result, the counter moves to the next instruction. */
  lemma StepAlu(program: seq<Instruction>, m: Machine, op: Opcode, rd: Register, rs: Register, rt: Register)
    requires op in {ADD, SUB, SLT}
    requires 0 <= m.pc < |program| && program[m.pc].mnemonic == Name(op)
    requires RegisterTriple(program[m.pc].operands) == Ok((rd, rs, rt))
    ensures Step(program, m)
        == (m.(pc := m.pc + 1, registers := WriteReg(m.registers, rd, Alu(op, ReadReg(m.registers, rs), ReadReg(m.registers, rt)))), None)
  {
    StepDispatches(program, m, op);
  }

  /** ADDI rt, rs, imm: rt takes rs + imm, the counter moves to the next instruction. */
  lemma StepAddi(program: seq<Instruction>, m: Machine, rt: Register, rs: Register, imm: int)
    requires 0 <= m.pc < |program| && program[m.pc].mnemonic == "ADDI"
    requires |program[m.pc].operands| >= 3
    requires ParseRegister(program[m.pc].operands[0]) == Ok(rt)
    requires ParseRegister(program[m.pc].operands[1]) == Ok(rs)
    requires ParseInt(program[m.pc].operands[2]) == Ok(imm)
    ensures Step(program, m) == (m.(pc := m.pc + 1, registers := WriteReg(m.registers, rt, ReadReg(m.registers, rs) + imm)), None)
  {
    StepDispatches(program, m, ADDI);
  }

  /** BNE rs, rt, offset: offset instructions past the next one when the registers differ, else the next one. */
  lemma StepBne(program: seq<Instruction>, m: Machine, rs: Register, rt: Register, offset: int)
    requires 0 <= m.pc < |program| && program[m.pc].mnemonic == "BNE"
    requires |program[m.pc].operands| >= 3
    requires ParseRegister(program[m.pc].operands[0]) == Ok(rs)
    requires ParseRegister(program[m.pc].operands[1]) == Ok(rt)
    requires ParseInt(program[m.pc].operands[2]) == Ok(offset)
    ensures Step(program, m)
        == (m.(pc := if ReadReg(m.registers, rs) != ReadReg(m.registers, rt) then m.pc + 1 + offset else m.pc + 1), None)
  {
    StepDispatches(program, m, BNE);
  }

  /** J target: the counter becomes the target and nothing else changes. */
  lemma StepJump(program: seq<Instruction>, m: Machine, target: int)
    requires 0 <= m.pc < |program| && program[m.pc].mnemonic == "J"
    requires |program[m.pc].operands| >= 1 && ParseInt(program[m.pc].operands[0]) == Ok(target)
    ensures Step(program, m) == (m.(pc := target), None)
  {
    StepDispatches(program, m, J);
  }

  /** JAL target: R7 takes the index of the instruction after the JAL, the counter becomes the target. */
  lemma StepJal(program: seq<Instruction>, m: Machine, target: int)
    requires 0 <= m.pc < |program| && program[m.pc].mnemonic == "JAL"
    requires |program[m.pc].operands| >= 1 && ParseInt(program[m.pc].operands[0]) == Ok(target)
    ensures Step(program, m) == (m.(pc := target, registers := WriteReg(m.registers, "R7", m.pc + 1)), None)
  {
    StepDispatches(program, m, JAL);
  }

  /** LW rt, offset(rs): rt takes what the cache reads at rs + offset, the counter moves to the next instruction. */
  lemma StepLoad(program: seq<Instruction>, m: Machine, rt: Register, address: int)
    requires 0 <= m.pc < |program| && program[m.pc].mnemonic == "LW"
    requires MemoryOperands(program[m.pc].operands, m.registers) == Ok((rt, address))
    ensures var (cache, value) := CacheRead(m.cache, address);
      Step(program, m) == (m.(pc := m.pc + 1, registers := WriteReg(m.registers, rt, value), cache := cache), None)
  {
    StepDispatches(program, m, LW);
  }

  /** SW rt, offset(rs): the cache writes rt's value at rs + offset, the counter moves to the next instruction. */
  lemma StepStore(program: seq<Instruction>, m: Machine, rt: Register, address: int)
    requires 0 <= m.pc < |program| && program[m.pc].mnemonic == "SW"
    requires MemoryOperands(program[m.pc].operands, m.registers) == Ok((rt, address))
    ensures Step(program, m) == (m.(pc := m.pc + 1, cache := CacheWrite(m.cache, address, ReadReg(m.registers, rt))), None)
  {
    StepDispatches(program, m, SW);
  }

  /** CACHE code: the cache changes mode, the counter moves to the next instruction. */
  lemma StepCache(program: seq<Instruction>, m: Machine, code: int)
    requires 0 <= m.pc < |program| && program[m.pc].mnemonic == "CACHE"
    requires |program[m.pc].operands| >= 1 && ParseInt(program[m.pc].operands[0]) == Ok(code)
    ensures Step(program, m) == (m.(pc := m.pc + 1, cache := CacheSetMode(m.cache, code)), None)
  {
    StepDispatches(program, m, CACHE);
  }

  /** While the cache is enabled, only a CACHE instruction can change the backing store. */
  lemma StepSparesBus(program: seq<Instruction>, m: Machine)
    requires m.cache.enabled
    requires 0 <= m.pc < |program| && program[m.pc].mnemonic != "CACHE"
    ensures Step(program, m).0.cache.memory == m.cache.memory
  {
    var ins, next := program[m.pc], Advanced(m);
    match Decode(ins.mnemonic)
    case None =>
    case Some(op) =>
      assert Step(program, m) == Settle(Execute(op, ins.operands, next), next);
      DecodeExactly(ins.mnemonic, CACHE);
      ExecuteSparesBus(op, ins.operands, next);
  }

  /** With the cache enabled, no handler but CACHE (whose set_mode may flush) writes the backing store. */
  lemma ExecuteSparesBus(op: Opcode, ops: seq<string>, m: Machine)
    requires op != CACHE && m.cache.enabled
    ensures Execute(op, ops, m).Ok? ==> Execute(op, ops, m).value.cache.memory == m.cache.memory
  {
    match op
    case ADD =>
    case SUB =>
    case SLT =>
    case ADDI =>
    case BNE =>
    case J =>
    case JAL =>
    case LW =>
      if ExecLoad(ops, m).Ok? {
        ReadObservesView(m.cache, MemoryOperands(ops, m.registers).value.1);
      }
    case SW =>
    case HALT =>
  }

  /** Every step keeps R0 at zero and a disabled cache empty. */
  lemma StepSound(program: seq<Instruction>, m: Machine)
    requires Sound(m)
    ensures Sound(Step(program, m).0)
  {
    match Fetch(program, m.pc)
    case Err(_) =>
    case Ok(ins) =>
      var next := m.(pc := m.pc + 1);
      match Decode(ins.mnemonic)
      case None =>
      case Some(op) =>
        var r := Execute(op, ins.operands, next);
        assert Step(program, m) == Settle(r, next);
        if r.Ok? {
          ExecuteSound(op, ins.operands, next);
          assert Step(program, m).0 == r.value;
        } else {
          assert Step(program, m).0 == next;
        }
  }

  lemma ExecuteSound(op: Opcode, ops: seq<string>, m: Machine)
    requires Sound(m) && Execute(op, ops, m).Ok?
    ensures Sound(Execute(op, ops, m).value)
  {
    var n := Execute(op, ops, m).value;
    match op
    case LW =>
      var target := MemoryOperands(ops, m.registers).value;
      CoherentPreserved(m.cache, target.1, 0, 0);
      ReadAfterWriteReg(m.registers, target.0, CacheRead(m.cache, target.1).1, "R0");
    case SW =>
      var target := MemoryOperands(ops, m.registers).value;
      CoherentPreserved(m.cache, target.1, ReadReg(m.registers, target.0), 0);
    case CACHE =>
      CoherentPreserved(m.cache, 0, 0, ParseInt(ops[0]).value);
    case JAL =>
      ReadAfterWriteReg(m.registers, "R7", m.pc, "R0");
    case ADDI =>
      AddiEffect(ops, m, "R0");
    case BNE =>
    case J =>
    case HALT =>
    case _ =>
      AluEffect(op, ops, m, "R0");
  }

  /** The machine a run stops at, the exception that stopped it if any, and the steps it took. */
  datatype Outcome = Outcome(machine: Machine, fault: Option<Fault>, steps: nat)

  /**
   * The run loop for any step function: while the machine is not stopped, at
   * most budget times, take a step; an exception ends the loop where it was raised.
   */
  function Iterate(step: Machine -> (Machine, Option<Fault>), stopped: Machine -> bool, m: Machine, budget: nat): (r: Outcome)
    ensures r.steps <= budget
    ensures r.fault.None? ==> stopped(r.machine) || r.steps == budget
    ensures r.fault.Some? ==> r.steps > 0
    decreases budget
  {
    if stopped(m) || budget == 0 then Outcome(m, None, 0)
    else
      var (n, fault) := step(m);
      if fault.Some? then Outcome(n, fault, 1)
      else
        var rest := Iterate(step, stopped, n, budget - 1);
        Outcome(rest.machine, rest.fault, rest.steps + 1)
  }

  /** A loop that ended before using its whole budget ends the same with any larger budget. */
  lemma {:induction false} IterateBudgetIrrelevant(step: Machine -> (Machine, Option<Fault>), stopped: Machine -> bool, m: Machine, budget: nat, more: nat)
    requires Iterate(step, stopped, m, budget).steps < budget || Iterate(step, stopped, m, budget).fault.Some?
    requires budget <= more
    ensures Iterate(step, stopped, m, more) == Iterate(step, stopped, m, budget)
    decreases budget
  {
    if !stopped(m) {
      var (n, fault) := step(m);
      if fault.None? {
        IterateBudgetIrrelevant(step, stopped, n, budget - 1, more - 1);
      }
    }
  }

  /** Looping for a + b steps is looping for a steps and then, from where that stopped, for b more. */
  lemma {:induction false} IterateCompose(step: Machine -> (Machine, Option<Fault>), stopped: Machine -> bool, m: Machine, a: nat, b: nat)
    requires Iterate(step, stopped, m, a).fault.None?
    ensures var first := Iterate(step, stopped, m, a);
      var second := Iterate(step, stopped, first.machine, b);
      Iterate(step, stopped, m, a + b) == Outcome(second.machine, second.fault, first.steps + second.steps)
    decreases a
  {
    if !stopped(m) && a > 0 {
      var (n, fault) := step(m);
      IterateCompose(step, stopped, n, a - 1, b);
    }
  }

  /** A loop that can step, with budget left, takes the step first. */
  lemma IterateStep(step: Machine -> (Machine, Option<Fault>), stopped: Machine -> bool,
                    m: Machine, budget: nat, n: Machine, fault: Option<Fault>)
    requires !stopped(m) && budget > 0 && step(m) == (n, fault)
    ensures fault.Some? ==> Iterate(step, stopped, m, budget) == Outcome(n, fault, 1)
    ensures fault.None? ==> Iterate(step, stopped, m, budget) == Later(Iterate(step, stopped, n, budget - 1), 1)
  {
  }

  /** Three fault-free steps, the last one onto a stopped machine, make a loop of three steps. */
  lemma IterateThree(step: Machine -> (Machine, Option<Fault>), stopped: Machine -> bool,
                     m0: Machine, m1: Machine, m2: Machine, m3: Machine, budget: nat)
    requires budget >= 3 && !stopped(m0) && !stopped(m1) && !stopped(m2) && stopped(m3)
    requires step(m0) == (m1, None) && step(m1) == (m2, None) && step(m2) == (m3, None)
    ensures Iterate(step, stopped, m0, budget) == Outcome(m3, None, 3)
  {
    assert Iterate(step, stopped, m2, budget - 2) == Outcome(m3, None, 1);
  }

  /** A property every step keeps holds where the loop stops. */
  lemma {:induction false} IterateKeeps(step: Machine -> (Machine, Option<Fault>), stopped: Machine -> bool, inv: Machine -> bool, m: Machine, budget: nat)
    requires forall n :: inv(n) ==> inv(step(n).0)
    requires inv(m)
    ensures inv(Iterate(step, stopped, m, budget).machine)
    decreases budget
  {
    if !stopped(m) && budget > 0 {
      var (n, fault) := step(m);
      if fault.None? {
        IterateKeeps(step, stopped, inv, n, budget - 1);
      }
    }
  }

  /** The machine can take no further step: halted, or the counter outside the program. */
  predicate Stopped(program: seq<Instruction>, m: Machine) {
    m.halted || !(0 <= m.pc < |program|)
  }

  /**
   * run(program, max_steps) for a step budget: steps while the machine is not
   * halted and the counter is inside the program, at most budget times; an
   * exception ends the run where it was raised.
   */
  function Run(program: seq<Instruction>, m: Machine, budget: nat): (r: Outcome)
    ensures r.steps <= budget
    ensures r.fault.None? ==> Stopped(program, r.machine) || r.steps == budget
    ensures r.fault.Some? ==> r.steps > 0
  {
    Iterate(n => Step(program, n), n => Stopped(program, n), m, budget)
  }

  /** A run is over before its first step when the machine has stopped or the budget is spent. */
  lemma RunStops(program: seq<Instruction>, m: Machine, budget: nat)
    requires Stopped(program, m) || budget == 0
    ensures Run(program, m, budget) == Outcome(m, None, 0)
  {
  }

  /** One turn of the run loop: a machine that can step, with budget left, takes the step first. */
  lemma RunStep(program: seq<Instruction>, m: Machine, budget: nat, n: Machine, fault: Option<Fault>)
    requires !Stopped(program, m) && budget > 0
    requires Step(program, m) == (n, fault)
    ensures fault.Some? ==> Run(program, m, budget) == Outcome(n, fault, 1)
    ensures fault.None? ==> Run(program, m, budget) == Later(Run(program, n, budget - 1), 1)
  {
    IterateStep(n => Step(program, n), n => Stopped(program, n), m, budget, n, fault);
  }

  /** The run loop's bookkeeping: a step taken with budget left moves the rest of the run one step on. */
  lemma RunAdvance(program: seq<Instruction>, total: Outcome, m: Machine, left: nat, steps: nat, n: Machine, fault: Option<Fault>)
    requires total == Later(Run(program, m, left), steps)
    requires !Stopped(program, m) && left > 0
    requires Step(program, m) == (n, fault)
    ensures fault.None? ==> total == Later(Run(program, n, left - 1), steps + 1)
    ensures fault.Some? ==> total.machine == n && total.fault == fault
  {
    RunStep(program, m, left, n, fault);
  }

  /** An outcome reached after k earlier steps. */
  function Later(o: Outcome, k: nat): Outcome {
    Outcome(o.machine, o.fault, o.steps + k)
  }

  /** The budget max_steps gives: a negative one stops before the first step. */
  function Budget(maxSteps: int): nat {
    if maxSteps < 0 then 0 else maxSteps
  }

  /** A run that ended before using its whole budget ends the same with any larger budget. */
  lemma RunBudgetIrrelevant(program: seq<Instruction>, m: Machine, budget: nat, more: nat)
    requires Run(program, m, budget).steps < budget || Run(program, m, budget).fault.Some?
    requires budget <= more
    ensures Run(program, m, more) == Run(program, m, budget)
  {
    IterateBudgetIrrelevant(n => Step(program, n), n => Stopped(program, n), m, budget, more);
  }

  /** Running for a + b steps is running for a steps and then, from where that stopped, for b more. */
  lemma RunCompose(program: seq<Instruction>, m: Machine, a: nat, b: nat)
    requires Run(program, m, a).fault.None?
    ensures var first := Run(program, m, a);
      var second := Run(program, first.machine, b);
      Run(program, m, a + b) == Outcome(second.machine, second.fault, first.steps + second.steps)
  {
    IterateCompose(n => Step(program, n), n => Stopped(program, n), m, a, b);
  }

  /** A run keeps R0 at zero and a disabled cache empty. */
  lemma RunSound(program: seq<Instruction>, m: Machine, budget: nat)
    requires Sound(m)
    ensures Sound(Run(program, m, budget).machine)
  {
    forall n | Sound(n) ensures Sound(Step(program, n).0) {
      StepSound(program, n);
    }
    IterateKeeps(n => Step(program, n), n => Stopped(program, n), Sound, m, budget);
  }

  /** A halted machine does not run. */
  lemma RunHalted(program: seq<Instruction>, m: Machine, budget: nat)
    requires m.halted
    ensures Run(program, m, budget) == Outcome(m, None, 0)
  {
  }
}
