/**
 * The execution engine as an object: the register map, the program counter
 * and the halt flag are fields its methods update in place, and its cache is
 * a Cache object in front of a MemoryBus. Each method is proved to do what the
 * corresponding function of Semantics says.
 */
module Cpu {
  import opened Outcomes
  import opened Tokens
  import opened Caching
  import opened Semantics

  class Processor {
    const cache: Cache
    var registers: map<Register, int>
    var pc: int
    var halted: bool

    /** A new engine: R0..R7 zero, the counter at 0, not halted. */
    constructor (cache: Cache)
      ensures this.cache == cache
      ensures registers == InitialRegisters() && pc == 0 && !halted
    {
      this.cache := cache;
      registers := InitialRegisters();
      pc := 0;
      halted := false;
    }

    /** The engine's fields together with its cache and backing store. */
    function State(): Machine
      reads this, cache, cache.bus
    {
      Machine(registers, pc, halted, cache.State())
    }

    /** reset: zero each register in turn, then clear the counter and the halt flag. */
    method Reset()
      modifies this
      ensures State() == ResetMachine(old(State()))
    {
      var pending := registers.Keys;
      while pending != {}
        invariant pending <= registers.Keys && registers.Keys == old(registers).Keys
        invariant forall k :: k in registers ==> registers[k] == if k in pending then old(registers)[k] else 0
        decreases pending
      {
        ghost var member := SomeMember(pending);
        var k :| k in pending;
        registers := registers[k := 0];
        pending := pending - {k};
      }
      assert registers == map k | k in old(registers) :: 0;
      pc := 0;
      halted := false;
    }

    /** _read_reg: the register's value, 0 for a name never written. */
    method ReadReg(r: Register) returns (value: int)
      ensures value == Semantics.ReadReg(registers, r)
    {
      if r in registers {
        value := registers[r];
      } else {
        value := 0;
      }
    }

    /** _write_reg: R0 ignores the write. */
    method WriteReg(r: Register, value: int)
      modifies this
      ensures registers == Semantics.WriteReg(old(registers), r, value)
      ensures pc == old(pc) && halted == old(halted)
    {
      if r == "R0" {
        return;
      }
      registers := registers[r := value];
    }

    /** ADD, SUB and SLT share the unpacking of three registers and differ in the value computed. */
    method OpAlu(op: Opcode, ops: seq<string>) returns (fault: Option<Fault>)
      requires op in {ADD, SUB, SLT}
      modifies this
      ensures (State(), fault) == Settle(Execute(op, ops, old(State())), old(State()))
    {
      ghost var m := State();
      assert Execute(op, ops, m) == ExecAlu(op, ops, m);
      var t := RegisterTriple(ops);
      if t.Err? {
        return Some(t.fault);
      }
      var (rd, rs, rt) := t.value;
      var a := ReadReg(rs);
      var b := ReadReg(rt);
      var res := if op == ADD then a + b else if op == SUB then a - b else if a < b then 1 else 0;
      assert res == Alu(op, a, b);
      WriteReg(rd, res);
      fault := None;
    }

    /** ADDI rt, rs, imm */
    method OpAddi(ops: seq<string>) returns (fault: Option<Fault>)
      modifies this
      ensures (State(), fault) == Settle(Execute(ADDI, ops, old(State())), old(State()))
    {
      if |ops| < 3 {
        return Some(IndexError);
      }
      var rt := ParseRegister(ops[0]);
      if rt.Err? {
        return Some(rt.fault);
      }
      var rs := ParseRegister(ops[1]);
      if rs.Err? {
        return Some(rs.fault);
      }
      var imm := ParseInt(ops[2]);
      if imm.Err? {
        return Some(imm.fault);
      }
      var a := ReadReg(rs.value);
      WriteReg(rt.value, a + imm.value);
      fault := None;
    }

    /** BNE rs, rt, offset */
    method OpBne(ops: seq<string>) returns (fault: Option<Fault>)
      modifies this
      ensures (State(), fault) == Settle(Execute(BNE, ops, old(State())), old(State()))
    {
      if |ops| < 3 {
        return Some(IndexError);
      }
      var rs := ParseRegister(ops[0]);
      if rs.Err? {
        return Some(rs.fault);
      }
      var rt := ParseRegister(ops[1]);
      if rt.Err? {
        return Some(rt.fault);
      }
      var offset := ParseInt(ops[2]);
      if offset.Err? {
        return Some(offset.fault);
      }
      var a := ReadReg(rs.value);
      var b := ReadReg(rt.value);
      if a != b {
        pc := pc + offset.value;
      }
      fault := None;
    }

    /** J target */
    method OpJ(ops: seq<string>) returns (fault: Option<Fault>)
      modifies this
      ensures (State(), fault) == Settle(Execute(J, ops, old(State())), old(State()))
    {
      if |ops| < 1 {
        return Some(IndexError);
      }
      var target := ParseInt(ops[0]);
      if target.Err? {
        return Some(target.fault);
      }
      pc := target.value;
      fault := None;
    }

    /** JAL target */
    method OpJal(ops: seq<string>) returns (fault: Option<Fault>)
      modifies this
      ensures (State(), fault) == Settle(Execute(JAL, ops, old(State())), old(State()))
    {
      if |ops| < 1 {
        return Some(IndexError);
      }
      var target := ParseInt(ops[0]);
      if target.Err? {
        return Some(target.fault);
      }
      var link := pc;
      WriteReg("R7", link);
      pc := target.value;
      fault := None;
    }

    /** The target register and the address rs + offset of LW/SW rt, offset(rs), parsed in the engine's order. */
    method MemoryTarget(ops: seq<string>) returns (target: Result<(Register, int)>)
      ensures target == MemoryOperands(ops, registers)
    {
      if |ops| < 1 {
        return Err(IndexError);
      }
      var rt := ParseRegister(ops[0]);
      if rt.Err? {
        return Err(rt.fault);
      }
      if |ops| < 2 {
        return Err(IndexError);
      }
      var operand := ParseMemOperand(ops[1]);
      if operand.Err? {
        return Err(operand.fault);
      }
      var (offset, rs) := operand.value;
      var base := ReadReg(rs);
      MemoryOperandsOk(ops, State());
      return Ok((rt.value, base + offset));
    }

    /** LW rt, offset(rs) */
    method OpLw(ops: seq<string>) returns (fault: Option<Fault>)
      modifies this, cache
      ensures (State(), fault) == Settle(Execute(LW, ops, old(State())), old(State()))
    {
      ghost var m := State();
      assert Execute(LW, ops, m) == ExecLoad(ops, m);
      var target := MemoryTarget(ops);
      if target.Err? {
        return Some(target.fault);
      }
      var (rt, address) := target.value;
      var value := cache.Read(address);
      ghost var loaded := cache.State();
      WriteReg(rt, value);
      assert cache.State() == loaded;
      assert ExecLoad(ops, m) == Ok(m.(cache := loaded, registers := Semantics.WriteReg(m.registers, rt, value)));
      fault := None;
    }

    /** SW rt, offset(rs) */
    method OpSw(ops: seq<string>) returns (fault: Option<Fault>)
      modifies cache, cache.bus
      ensures (State(), fault) == Settle(Execute(SW, ops, old(State())), old(State()))
    {
      ghost var m := State();
      assert Execute(SW, ops, m) == ExecStore(ops, m);
      var target := MemoryTarget(ops);
      if target.Err? {
        return Some(target.fault);
      }
      var (rt, address) := target.value;
      var value := ReadReg(rt);
      cache.Write(address, value);
      assert ExecStore(ops, m) == Ok(m.(cache := CacheWrite(m.cache, address, value)));
      fault := None;
    }

    /** CACHE code */
    method OpCache(ops: seq<string>) returns (fault: Option<Fault>)
      modifies cache, cache.bus
      ensures (State(), fault) == Settle(Execute(CACHE, ops, old(State())), old(State()))
    {
      if |ops| < 1 {
        return Some(IndexError);
      }
      var code := ParseInt(ops[0]);
      if code.Err? {
        return Some(code.fault);
      }
      cache.SetMode(code.value);
      fault := None;
    }

    /** HALT */
    method OpHalt(ops: seq<string>) returns (fault: Option<Fault>)
      modifies this
      ensures (State(), fault) == Settle(Execute(HALT, ops, old(State())), old(State()))
    {
      halted := true;
      fault := None;
    }

    /** step: fetch the instruction at the counter, advance the counter, run the handler its mnemonic names. */
    method Step(program: seq<Instruction>) returns (fault: Option<Fault>)
      modifies this, cache, cache.bus
      ensures (State(), fault) == Semantics.Step(program, old(State()))
    {
      var ins: Instruction;
      if 0 <= pc < |program| {
        ins := program[pc];
      } else if -|program| <= pc < 0 {
        ins := program[|program| + pc];
      } else {
        return Some(IndexError);
      }
      assert Fetch(program, old(pc)) == Ok(ins);
      pc := pc + 1;
      ghost var next := State();
      match Decode(ins.mnemonic) {
        case None =>
          fault := Some(NotImplementedError(ins.mnemonic));
        case Some(op) =>
          assert Semantics.Step(program, old(State())) == Settle(Execute(op, ins.operands, next), next);
          match op {
            case ADD => fault := OpAlu(op, ins.operands);
            case SUB => fault := OpAlu(op, ins.operands);
            case SLT => fault := OpAlu(op, ins.operands);
            case ADDI => fault := OpAddi(ins.operands);
            case BNE => fault := OpBne(ins.operands);
            case J => fault := OpJ(ins.operands);
            case JAL => fault := OpJal(ins.operands);
            case LW => fault := OpLw(ins.operands);
            case SW => fault := OpSw(ins.operands);
            case CACHE => fault := OpCache(ins.operands);
            case HALT => fault := OpHalt(ins.operands);
          }
      }
    }

    /** One turn of the run loop: a step, after which the rest of the run is one step shorter. */
    method Turn(program: seq<Instruction>, ghost total: Outcome, ghost current: Machine, ghost left: nat, ghost steps: nat)
      returns (fault: Option<Fault>)
      modifies this, cache, cache.bus
      requires current == State() && total == Later(Semantics.Run(program, current, left), steps)
      requires !Stopped(program, current) && left > 0
      ensures fault.None? ==> total == Later(Semantics.Run(program, State(), left - 1), steps + 1)
      ensures fault.Some? ==> State() == total.machine && fault == total.fault
    {
      fault := Step(program);
      RunAdvance(program, total, current, left, steps, State(), fault);
    }

    /**
     * run(program, max_steps): step while not halted and the counter is inside
     * the program, stopping once max_steps steps were taken; an exception from a
     * step ends the run and is returned.
     */
    method Run(program: seq<Instruction>, maxSteps: int) returns (fault: Option<Fault>)
      modifies this, cache, cache.bus
      ensures var r := Semantics.Run(program, old(State()), Budget(maxSteps));
        State() == r.machine && fault == r.fault
    {
      ghost var current := State();
      ghost var total := Semantics.Run(program, current, Budget(maxSteps));
      ghost var left: nat := Budget(maxSteps);
      var steps := 0;
      while !halted && 0 <= pc < |program| && steps < maxSteps
        invariant current == State()
        invariant steps + left == Budget(maxSteps)
        invariant total == Later(Semantics.Run(program, current, left), steps)
        decreases left
      {
        assert !Stopped(program, current) && left > 0;
        fault := Turn(program, total, current, left, steps);
        current := State();
        steps := steps + 1;
        left := left - 1;
        if fault.Some? {
          return;
        }
      }
      assert Stopped(program, current) || left == 0;
      RunStops(program, current, left);
      fault := None;
    }
  }
}
