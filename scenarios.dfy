/**
 * The programs and data lines of the simulator's test suite, run through the
 * model. Each program is stated for any operand tokens that parse the way the
 * test's tokens do; the "Tokens" lemmas show that the test's own tokens do.
 */
module Scenarios {
  import opened Outcomes
  import opened Text
  import opened Integers
  import opened Tokens
  import opened Memory
  import opened Caching
  import opened Semantics
  import opened Cpu

  /** A register name of one digit, "R0" to "R9", parses as itself. */
  lemma RegisterLiteral(r: string)
    requires |r| == 2 && r[0] == 'R' && IsDigit(r[1])
    ensures ParseRegister(r) == Ok(r)
  {
    assert Upper(r[1..]) == [UpperChar(r[1])] + Upper([]);
    assert Upper(r) == r;
    ParseRegisterFixedPoint(r);
  }

  /** A one-digit token from 2 to 9 is read in base 10. */
  lemma DigitLiteral(t: string, d: nat)
    requires 2 <= d < 10 && t == [DigitChar(d)]
    ensures ParseInt(t) == Ok(d)
  {
    assert Show(d) == t;
    assert !AllBinary(t) by { assert !IsBinaryDigit(t[0]); }
    ParseIntDecimal(d);
  }

  /** The token "1" is one in base 2 as in base 10. */
  lemma OneLiteral(t: string)
    requires t == "1"
    ensures ParseInt(t) == Ok(1)
  {
    assert Binary(1) == t;
    ParseIntBinary(1);
  }

  /** The memory operand "8(R0)" is offset 8 from R0. */
  lemma EightOffR0()
    ensures ParseMemOperand("8(R0)") == Ok((8, "R0"))
  {
    assert CanonicalRegister("R0");
    assert !IsBinaryDigit(Show(8)[0]);
    ParseMemOperandRoundTrip(8, "R0");
    assert Show(8) + "(" + "R0" + ")" == "8(R0)";
  }

  /** A machine about to run a program from its first instruction with R0 reading as zero. */
  predicate AtStart(m: Machine) {
    m.pc == 0 && !m.halted && ReadReg(m.registers, "R0") == 0
  }

  /** Three fault-free steps ending in a halt make a run of three steps. */
  lemma RunThree(p: seq<Instruction>, m0: Machine, m1: Machine, m2: Machine, m3: Machine, budget: nat)
    requires budget >= 3 && 0 <= m0.pc < |p| && !m0.halted
    requires Step(p, m0) == (m1, None) && 0 <= m1.pc < |p| && !m1.halted
    requires Step(p, m1) == (m2, None) && 0 <= m2.pc < |p| && !m2.halted
    requires Step(p, m2) == (m3, None) && m3.halted
    ensures Run(p, m0, budget) == Outcome(m3, None, 3)
  {
    IterateThree(n => Step(p, n), n => Stopped(p, n), m0, m1, m2, m3, budget);
  }

  /** Two fault-free steps in front of the rest of a run. */
  lemma RunTwoMore(p: seq<Instruction>, m0: Machine, m1: Machine, m2: Machine, budget: nat)
    requires budget >= 2 && 0 <= m0.pc < |p| && !m0.halted
    requires Step(p, m0) == (m1, None) && 0 <= m1.pc < |p| && !m1.halted
    requires Step(p, m1) == (m2, None)
    ensures Run(p, m0, budget) == Later(Run(p, m2, budget - 2), 2)
  {
    RunStep(p, m0, budget, m1, None);
    RunStep(p, m1, budget - 1, m2, None);
  }

  /** The program of the first execution test, for any tokens. */
  predicate ProgramA(p: seq<Instruction>, r0: string, r1: string, r2: string, five: string) {
    |p| == 3 && p[0] == Instruction("ADDI", [r1, r0, five])
    && p[1] == Instruction("ADD", [r2, r1, r1]) && p[2] == Instruction("HALT", [])
  }

  /** Its first step: ADDI R1,R0,5. */
  lemma ScenarioA0(p: seq<Instruction>, m0: Machine, r0: string, r1: string, five: string, r2: string)
    requires ParseRegister(r0) == Ok("R0") && ParseRegister(r1) == Ok("R1") && ParseInt(five) == Ok(5)
    requires ProgramA(p, r0, r1, r2, five) && AtStart(m0)
    ensures Step(p, m0) == (m0.(pc := 1, registers := WriteReg(m0.registers, "R1", 5)), None)
  {
    StepAddi(p, m0, "R1", "R0", 5);
  }

  /** Its second step: ADD R2,R1,R1 with R1 holding 5. */
  lemma ScenarioA1(p: seq<Instruction>, m1: Machine, r0: string, r1: string, five: string, r2: string)
    requires ParseRegister(r1) == Ok("R1") && ParseRegister(r2) == Ok("R2")
    requires ProgramA(p, r0, r1, r2, five) && m1.pc == 1 && ReadReg(m1.registers, "R1") == 5
    ensures Step(p, m1) == (m1.(pc := 2, registers := WriteReg(m1.registers, "R2", 10)), None)
  {
    RegisterTripleOk(p[1].operands);
    StepAlu(p, m1, ADD, "R2", "R1", "R1");
  }

  /**
   * ADDI R1,R0,5 / ADD R2,R1,R1 / HALT: R1 = 5, R2 = 10, halted after three
   * steps, from any start where R0 reads 0.
   */
  lemma ScenarioA(p: seq<Instruction>, m0: Machine, budget: nat, r0: string, r1: string, r2: string, five: string)
    requires ParseRegister(r0) == Ok("R0") && ParseRegister(r1) == Ok("R1") && ParseRegister(r2) == Ok("R2")
    requires ParseInt(five) == Ok(5)
    requires ProgramA(p, r0, r1, r2, five) && AtStart(m0) && budget >= 3
    ensures var o := Run(p, m0, budget);
      && o.fault == None && o.steps == 3 && o.machine.halted
      && ReadReg(o.machine.registers, "R1") == 5 && ReadReg(o.machine.registers, "R2") == 10
  {
    ScenarioA0(p, m0, r0, r1, five, r2);
    var m1 := m0.(pc := 1, registers := WriteReg(m0.registers, "R1", 5));
    ScenarioA1(p, m1, r0, r1, five, r2);
    var m2 := m1.(pc := 2, registers := WriteReg(m1.registers, "R2", 10));
    HaltStops(p, m2);
    RunThree(p, m0, m1, m2, m2.(pc := 3, halted := true), budget);
  }

  /** The tokens of the first execution test parse as ScenarioA needs. */
  lemma ScenarioATokens()
    ensures ParseRegister("R0") == Ok("R0") && ParseRegister("R1") == Ok("R1") && ParseRegister("R2") == Ok("R2")
    ensures ParseInt("5") == Ok(5)
  {
    RegisterLiteral("R0");
    RegisterLiteral("R1");
    RegisterLiteral("R2");
    DigitLiteral("5", 5);
  }

  /**
   * The program of the branch-and-jump test, for any tokens:
   * ADDI R1,R0,1 / BNE R1,R0,2 / ADDI R2,R0,99 / J 5 / JAL 6 / ADDI R3,R0,7 / HALT.
   */
  predicate ProgramB(p: seq<Instruction>, r0: string, r1: string, r2: string, r3: string,
                     one: string, two: string, five: string, six: string, seven: string, t99: string) {
    |p| == 7 && p[0] == Instruction("ADDI", [r1, r0, one]) && p[1] == Instruction("BNE", [r1, r0, two])
    && p[2] == Instruction("ADDI", [r2, r0, t99]) && p[3] == Instruction("J", [five])
    && p[4] == Instruction("JAL", [six]) && p[5] == Instruction("ADDI", [r3, r0, seven])
    && p[6] == Instruction("HALT", [])
  }

  /** The parse facts the branch-and-jump test relies on. */
  predicate TokensB(r0: string, r1: string, one: string, two: string, six: string) {
    && ParseRegister(r0) == Ok("R0") && ParseRegister(r1) == Ok("R1")
    && ParseInt(one) == Ok(1) && ParseInt(two) == Ok(2) && ParseInt(six) == Ok(6)
  }

  /** Its first step: ADDI R1,R0,1. */
  lemma ScenarioB0(p: seq<Instruction>, m0: Machine, r0: string, r1: string, r2: string, r3: string,
                   one: string, two: string, five: string, six: string, seven: string, t99: string)
    requires TokensB(r0, r1, one, two, six) && ProgramB(p, r0, r1, r2, r3, one, two, five, six, seven, t99)
    requires AtStart(m0)
    ensures Step(p, m0) == (m0.(pc := 1, registers := WriteReg(m0.registers, "R1", 1)), None)
  {
    StepAddi(p, m0, "R1", "R0", 1);
  }

  /** Its second step: BNE R1,R0,2 with R1 = 1 and R0 = 0 is taken, to index 4. */
  lemma ScenarioB1(p: seq<Instruction>, m1: Machine, r0: string, r1: string, r2: string, r3: string,
                   one: string, two: string, five: string, six: string, seven: string, t99: string)
    requires TokensB(r0, r1, one, two, six) && ProgramB(p, r0, r1, r2, r3, one, two, five, six, seven, t99)
    requires m1.pc == 1 && ReadReg(m1.registers, "R1") == 1 && ReadReg(m1.registers, "R0") == 0
    ensures Step(p, m1) == (m1.(pc := 4), None)
  {
    StepBne(p, m1, "R1", "R0", 2);
  }

  /** Its third step: JAL 6 at index 4 links 5 into R7. */
  lemma ScenarioB2(p: seq<Instruction>, m2: Machine, r0: string, r1: string, r2: string, r3: string,
                   one: string, two: string, five: string, six: string, seven: string, t99: string)
    requires TokensB(r0, r1, one, two, six) && ProgramB(p, r0, r1, r2, r3, one, two, five, six, seven, t99)
    requires m2.pc == 4
    ensures Step(p, m2) == (m2.(pc := 6, registers := WriteReg(m2.registers, "R7", 5)), None)
  {
    StepJal(p, m2, 6);
  }

  /** The run of the branch-and-jump program: four steps, through indices 0, 1, 4 and 6. */
  lemma ScenarioBRun(p: seq<Instruction>, m0: Machine, budget: nat,
                     r0: string, r1: string, r2: string, r3: string,
                     one: string, two: string, five: string, six: string, seven: string, t99: string)
    requires TokensB(r0, r1, one, two, six) && ProgramB(p, r0, r1, r2, r3, one, two, five, six, seven, t99)
    requires AtStart(m0) && budget >= 4
    ensures var m3 := m0.(pc := 6, registers := WriteReg(WriteReg(m0.registers, "R1", 1), "R7", 5));
      Run(p, m0, budget) == Outcome(m3.(pc := 7, halted := true), None, 4)
  {
    ScenarioB0(p, m0, r0, r1, r2, r3, one, two, five, six, seven, t99);
    var m1 := m0.(pc := 1, registers := WriteReg(m0.registers, "R1", 1));
    ReadAfterWriteReg(m0.registers, "R1", 1, "R0");
    ReadAfterWriteReg(m0.registers, "R1", 1, "R1");
    ScenarioB1(p, m1, r0, r1, r2, r3, one, two, five, six, seven, t99);
    var m2 := m1.(pc := 4);
    ScenarioB2(p, m2, r0, r1, r2, r3, one, two, five, six, seven, t99);
    var m3 := m2.(pc := 6, registers := WriteReg(m2.registers, "R7", 5));
    HaltStops(p, m3);
    RunStep(p, m0, budget, m1, None);
    RunThree(p, m1, m2, m3, m3.(pc := 7, halted := true), budget - 1);
  }

  /**
   * The branch-and-jump test: the taken branch skips indices 2 and 3, JAL at
   * index 4 links 5 into R7 and jumps over index 5, so R1 = 1, R7 = 5 and R2,
   * R3 keep their values. The tokens of the skipped instructions are never
   * parsed, so nothing is required of them.
   */
  lemma ScenarioB(p: seq<Instruction>, m0: Machine, budget: nat,
                  r0: string, r1: string, r2: string, r3: string,
                  one: string, two: string, five: string, six: string, seven: string, t99: string)
    requires TokensB(r0, r1, one, two, six) && ProgramB(p, r0, r1, r2, r3, one, two, five, six, seven, t99)
    requires AtStart(m0) && budget >= 4
    ensures var o := Run(p, m0, budget);
      && o.fault == None && o.steps == 4 && o.machine.halted
      && ReadReg(o.machine.registers, "R1") == 1 && ReadReg(o.machine.registers, "R7") == 5
      && ReadReg(o.machine.registers, "R2") == ReadReg(m0.registers, "R2")
      && ReadReg(o.machine.registers, "R3") == ReadReg(m0.registers, "R3")
  {
    ScenarioBRun(p, m0, budget, r0, r1, r2, r3, one, two, five, six, seven, t99);
    var once := WriteReg(m0.registers, "R1", 1);
    forall q | q in {"R1", "R2", "R3", "R7"}
      ensures ReadReg(WriteReg(once, "R7", 5), q) == if q == "R7" then 5 else ReadReg(once, q)
      ensures ReadReg(once, q) == if q == "R1" then 1 else ReadReg(m0.registers, q)
    {
      ReadAfterWriteReg(once, "R7", 5, q);
      ReadAfterWriteReg(m0.registers, "R1", 1, q);
    }
  }

  /** The parsed tokens of the branch-and-jump test parse as ScenarioB needs. */
  lemma ScenarioBTokens()
    ensures TokensB("R0", "R1", "1", "2", "6")
  {
    RegisterLiteral("R0");
    RegisterLiteral("R1");
    OneLiteral("1");
    DigitLiteral("2", 2);
    DigitLiteral("6", 6);
  }

  /** A disabled, empty cache in front of a backing store holding 10 at address 8. */
  predicate SeededAtEight(c: CacheState) {
    !c.enabled && c.store == map[] && Lookup(c.memory, 8) == 10
  }

  /** The program of the write-back test, for any tokens: CACHE 1 / LW R1,8(R0) / ADDI R1,R1,3 / SW R1,8(R0) / HALT. */
  predicate ProgramC(p: seq<Instruction>, r1: string, one: string, three: string, eight: string) {
    |p| == 5 && p[0] == Instruction("CACHE", [one]) && p[1] == Instruction("LW", [r1, eight])
    && p[2] == Instruction("ADDI", [r1, r1, three]) && p[3] == Instruction("SW", [r1, eight])
    && p[4] == Instruction("HALT", [])
  }

  /** The parse facts the write-back test relies on. */
  predicate TokensC(r1: string, one: string, three: string, eight: string) {
    ParseRegister(r1) == Ok("R1") && ParseInt(one) == Ok(1) && ParseInt(three) == Ok(3)
    && ParseMemOperand(eight) == Ok((8, "R0"))
  }

  /** Its first step: CACHE 1 enables the cache. */
  lemma ScenarioC0(p: seq<Instruction>, m0: Machine, one: string)
    requires ParseInt(one) == Ok(1) && |p| == 5 && p[0] == Instruction("CACHE", [one]) && m0.pc == 0
    ensures Step(p, m0) == (m0.(pc := 1, cache := m0.cache.(enabled := true)), None)
  {
    StepCache(p, m0, 1);
  }

  /** The operands r1, eight of LW and SW name R1 and address 8 whenever R0 reads 0. */
  ghost predicate AddressesEight(r1: string, eight: string) {
    forall registers: map<Register, int> :: ReadReg(registers, "R0") == 0 ==> MemoryOperands([r1, eight], registers) == Ok(("R1", 8))
  }

  /** Tokens that parse as R1 and as 8(R0) address 8 whatever the other registers hold. */
  lemma EightAddress(r1: string, eight: string)
    requires ParseRegister(r1) == Ok("R1") && ParseMemOperand(eight) == Ok((8, "R0"))
    ensures AddressesEight(r1, eight)
  {
  }

  /** Its second step: LW R1,8(R0) through an enabled cache that holds nothing: R1 = 10, the cache keeps 8 -> 10. */
  lemma ScenarioC1(p: seq<Instruction>, m1: Machine, r1: string, eight: string)
    requires |p| == 5 && p[1] == Instruction("LW", [r1, eight]) && MemoryOperands([r1, eight], m1.registers) == Ok(("R1", 8))
    requires m1.pc == 1 && m1.cache.enabled && m1.cache.store == map[] && Lookup(m1.cache.memory, 8) == 10
    ensures Step(p, m1) == (m1.(pc := 2, registers := WriteReg(m1.registers, "R1", 10), cache := m1.cache.(store := map[8 := 10])), None)
  {
    StepLoad(p, m1, "R1", 8);
  }

  /** Its third step: ADDI R1,R1,3 with R1 = 10. */
  lemma ScenarioC2(p: seq<Instruction>, m2: Machine, r1: string, three: string)
    requires ParseRegister(r1) == Ok("R1") && ParseInt(three) == Ok(3)
    requires |p| == 5 && p[2] == Instruction("ADDI", [r1, r1, three])
    requires m2.pc == 2 && ReadReg(m2.registers, "R1") == 10
    ensures Step(p, m2) == (m2.(pc := 3, registers := WriteReg(m2.registers, "R1", 13)), None)
  {
    StepAddi(p, m2, "R1", "R1", 3);
  }

  /** Its fourth step: SW R1,8(R0) with R1 = 13 through an enabled cache keeps 8 -> 13 in the cache only. */
  lemma ScenarioC3(p: seq<Instruction>, m3: Machine, r1: string, eight: string)
    requires |p| == 5 && p[3] == Instruction("SW", [r1, eight]) && MemoryOperands([r1, eight], m3.registers) == Ok(("R1", 8))
    requires m3.pc == 3 && ReadReg(m3.registers, "R1") == 13 && m3.cache.enabled
    ensures Step(p, m3) == (m3.(pc := 4, cache := m3.cache.(store := m3.cache.store[8 := 13])), None)
  {
    StepStore(p, m3, "R1", 8);
  }

  /** The first two steps of the write-back program: enable the cache, then load 10 into R1 through it. */
  lemma ScenarioCFront(p: seq<Instruction>, m0: Machine, budget: nat, r1: string, one: string, three: string, eight: string)
    requires ParseInt(one) == Ok(1) && AddressesEight(r1, eight)
    requires ProgramC(p, r1, one, three, eight)
    requires AtStart(m0) && SeededAtEight(m0.cache) && budget >= 2
    ensures Run(p, m0, budget) == Later(Run(p, m0.(pc := 2, registers := WriteReg(m0.registers, "R1", 10),
                                                     cache := m0.cache.(enabled := true, store := map[8 := 10])), budget - 2), 2)
  {
    ScenarioC0(p, m0, one);
    var m1 := m0.(pc := 1, cache := m0.cache.(enabled := true));
    ScenarioC1(p, m1, r1, eight);
    RunTwoMore(p, m0, m1, m1.(pc := 2, registers := WriteReg(m1.registers, "R1", 10), cache := m1.cache.(store := map[8 := 10])), budget);
  }

  /** The last three steps of the write-back program: add 3, store 13 into the cache, halt. */
  lemma ScenarioCBack(p: seq<Instruction>, m2: Machine, budget: nat, r1: string, one: string, three: string, eight: string)
    requires ParseRegister(r1) == Ok("R1") && ParseInt(three) == Ok(3)
    requires AddressesEight(r1, eight) && ProgramC(p, r1, one, three, eight)
    requires m2.pc == 2 && !m2.halted && ReadReg(m2.registers, "R0") == 0 && ReadReg(m2.registers, "R1") == 10
    requires m2.cache.enabled && m2.cache.store == map[8 := 10] && budget >= 3
    ensures var m4 := m2.(pc := 4, registers := WriteReg(m2.registers, "R1", 13), cache := m2.cache.(store := map[8 := 13]));
      Run(p, m2, budget) == Outcome(m4.(pc := 5, halted := true), None, 3)
  {
    ScenarioC2(p, m2, r1, three);
    var m3 := m2.(pc := 3, registers := WriteReg(m2.registers, "R1", 13));
    ReadAfterWriteReg(m2.registers, "R1", 13, "R1");
    ReadAfterWriteReg(m2.registers, "R1", 13, "R0");
    ScenarioC3(p, m3, r1, eight);
    assert m3.cache.store[8 := 13] == map[8 := 13];
    var m4 := m3.(pc := 4, cache := m3.cache.(store := map[8 := 13]));
    HaltStops(p, m4);
    RunThree(p, m2, m3, m4, m4.(pc := 5, halted := true), budget);
  }

  /** The run of the write-back program: five steps, ending with 13 at address 8 in the cache only. */
  lemma ScenarioCRun(p: seq<Instruction>, m0: Machine, budget: nat, r1: string, one: string, three: string, eight: string)
    requires ParseRegister(r1) == Ok("R1") && ParseInt(one) == Ok(1) && ParseInt(three) == Ok(3)
    requires AddressesEight(r1, eight) && ProgramC(p, r1, one, three, eight)
    requires AtStart(m0) && SeededAtEight(m0.cache) && budget >= 5
    ensures var m4 := m0.(pc := 4, registers := WriteReg(WriteReg(m0.registers, "R1", 10), "R1", 13),
                          cache := m0.cache.(enabled := true, store := map[8 := 13]));
      Run(p, m0, budget) == Outcome(m4.(pc := 5, halted := true), None, 5)
  {
    ScenarioCFront(p, m0, budget, r1, one, three, eight);
    var m2 := m0.(pc := 2, registers := WriteReg(m0.registers, "R1", 10), cache := m0.cache.(enabled := true, store := map[8 := 10]));
    ReadAfterWriteReg(m0.registers, "R1", 10, "R1");
    ReadAfterWriteReg(m0.registers, "R1", 10, "R0");
    ScenarioCBack(p, m2, budget - 2, r1, one, three, eight);
  }

  /**
   * The write-back test, with 10 at address 8: after the run the backing store
   * still holds 10 there, and a flush makes it 13.
   */
  lemma ScenarioC(p: seq<Instruction>, m0: Machine, budget: nat, r1: string, one: string, three: string, eight: string)
    requires TokensC(r1, one, three, eight) && ProgramC(p, r1, one, three, eight)
    requires AtStart(m0) && SeededAtEight(m0.cache) && budget >= 5
    ensures var o := Run(p, m0, budget);
      && o.fault == None && o.steps == 5 && o.machine.halted
      && Lookup(o.machine.cache.memory, 8) == 10
      && Lookup(CacheFlush(o.machine.cache).memory, 8) == 13
  {
    EightAddress(r1, eight);
    ScenarioCRun(p, m0, budget, r1, one, three, eight);
    assert View(m0.cache.(enabled := true, store := map[8 := 13]), 8) == 13;
  }

  /** The tokens of the write-back test parse as ScenarioC needs. */
  lemma ScenarioCTokens()
    ensures TokensC("R1", "1", "3", "8(R0)")
  {
    RegisterLiteral("R1");
    OneLiteral("1");
    DigitLiteral("3", 3);
    EightOffR0();
  }

  /**
   * The write-back test on the objects: a backing store seeded with 8 -> 10, a
   * cache and a processor in front of it run the program; afterwards the
   * store still reads 10 at address 8, after an explicit flush 13.
   */
  method CacheWriteBackScenario(p: seq<Instruction>, maxSteps: int, r1: string, one: string, three: string, eight: string)
    returns (before: int, after: int, fault: Option<Fault>)
    requires TokensC(r1, one, three, eight) && ProgramC(p, r1, one, three, eight) && maxSteps >= 5
    ensures fault == None && before == 10 && after == 13
  {
    var bus := new MemoryBus(map[8 := 10]);
    var cache := new Cache(bus);
    var cpu := new Processor(cache);
    ScenarioC(p, cpu.State(), maxSteps, r1, one, three, eight);
    fault := cpu.Run(p, maxSteps);
    before := bus.Read(8);
    cache.Flush();
    after := bus.Read(8);
  }

  /** The first data line of the loader test, "00000001,4": address 1 in base 2, value 4. */
  lemma BinaryDataLine()
    ensures DataLine("00000001,4") == Ok(Some((1, 4)))
  {
    var a := Zeros(7) + Binary(1);
    assert Zeros(7) == "0000000" && Binary(1) == "1" && Show(4) == "4";
    assert a + "," + Show(4) == "00000001,4";
    LeadingZeros(7, Binary(1));
    BinaryRoundTrip(1);
    Int10RoundTrip(4);
    assert ',' !in a by { assert forall k :: 0 <= k < |a| ==> IsBinaryDigit(a[k]); }
    assert !IsSpace(a[0]) && !IsSpace(a[|a| - 1]);
    StrippedShow(4);
    ShowCharacters(4);
    DataLineFields(a, Show(4));
  }

  /** The third data line of the loader test, "00000010,5": the address reads in base 2 as 2, not ten. */
  lemma BinaryTwoDataLine()
    ensures DataLine("00000010,5") == Ok(Some((2, 5)))
  {
    var a := Zeros(6) + Binary(2);
    assert Zeros(6) == "000000" && Binary(2) == "10" && Show(5) == "5";
    assert a + "," + Show(5) == "00000010,5";
    LeadingZeros(6, Binary(2));
    BinaryRoundTrip(2);
    Int10RoundTrip(5);
    assert ',' !in a by { assert forall k :: 0 <= k < |a| ==> IsBinaryDigit(a[k]); }
    assert !IsSpace(a[0]) && !IsSpace(a[|a| - 1]);
    StrippedShow(5);
    ShowCharacters(5);
    DataLineFields(a, Show(5));
  }

  /** The second data line of the loader test, "16,99": address 16 in base 10, value 99. */
  lemma DecimalDataLine()
    ensures DataLine("16,99") == Ok(Some((16, 99)))
  {
    assert Show(16) + "," + Show(99) == "16,99";
    assert !AllBinary(Show(16)) by { assert !IsBinaryDigit(Show(16)[1]); }
    DataLineDecimalRoundTrip(16, 99);
  }

  /**
   * The loader test on a MemoryBus: load its three lines into an empty store
   * and read back, then a write and a read at 3.
   */
  method MemoryBusScenario() returns (one: int, sixteen: int, two: int, three: int, fault: Option<Fault>)
    ensures fault == None && one == 4 && sixteen == 99 && two == 5 && three == 123
  {
    var bus := new MemoryBus(map[]);
    BinaryDataLine();
    DecimalDataLine();
    BinaryTwoDataLine();
    fault := bus.LoadLine("00000001,4");
    var f := bus.LoadLine("16,99");
    if f.Some? {
      fault := f;
    }
    f := bus.LoadLine("00000010,5");
    if f.Some? {
      fault := f;
    }
    one := bus.Read(1);
    sixteen := bus.Read(16);
    two := bus.Read(2);
    bus.Write(3, 123);
    three := bus.Read(3);
  }

  /** A comment line, even indented, gives no instruction. */
  lemma CommentLine()
    ensures ProgramLine("  # comment") == None
  {
    assert IsSpace(' ');
    assert TrimStart("  # comment") == "# comment";
    assert !IsSpace('t');
    assert Strip("  # comment") == "# comment";
  }

  /** "CACHE,1" gives CACHE with the operand 1. */
  lemma CacheLine()
    ensures ProgramLine("CACHE,1") == Some(Instruction("CACHE", ["1"]))
  {
    var fields := ["CACHE", "1"];
    assert Join(fields, ',') == "CACHE,1";
    StripFixedPoint("CACHE,1");
    StripFixedPoint("CACHE");
    StripFixedPoint("1");
    assert StripAll(fields)[1..] == ["1"];
    assert KeepOperands(["1"]) == ["1"];
    assert Upper("CACHE") == "CACHE";
    ProgramLineOfFields(fields);
  }

  /** "HALT,;" gives HALT with no operands: the ";" placeholder is dropped. */
  lemma HaltLine()
    ensures ProgramLine("HALT,;") == Some(Instruction("HALT", []))
  {
    var fields := ["HALT", ";"];
    assert Join(fields, ',') == "HALT,;";
    StripFixedPoint("HALT,;");
    StripFixedPoint("HALT");
    StripFixedPoint(";");
    assert Upper("HALT") == "HALT";
    ProgramLineOfFields(fields);
  }

  /** The fields of "ADDI , R2 , R2 , 2", joined back with commas. */
  lemma AddiLineFields()
    ensures Join(["ADDI ", " R2 ", " R2 ", " 2"], ',') == "ADDI , R2 , R2 , 2"
  {
    var fields := ["ADDI ", " R2 ", " R2 ", " 2"];
    assert Join(fields[3..], ',') == " 2";
    assert Join(fields[2..], ',') == " R2 , 2";
    assert Join(fields[1..], ',') == " R2 , R2 , 2";
  }

  /** Those fields stripped. */
  lemma AddiLineParts()
    ensures StripAll(["ADDI ", " R2 ", " R2 ", " 2"]) == ["ADDI", "R2", "R2", "2"]
  {
    StripSurrounded("", "ADDI", " ");
    assert "" + "ADDI" + " " == "ADDI ";
    StripSurrounded(" ", "R2", " ");
    assert " " + "R2" + " " == " R2 ";
    StripSurrounded(" ", "2", "");
    assert " " + "2" + "" == " 2";
  }

  /** "ADDI , R2 , R2 , 2": the spaces around each field are stripped. */
  lemma AddiLine()
    ensures ProgramLine("ADDI , R2 , R2 , 2") == Some(Instruction("ADDI", ["R2", "R2", "2"]))
  {
    var fields := ["ADDI ", " R2 ", " R2 ", " 2"];
    AddiLineFields();
    AddiLineParsed(fields);
  }

  lemma AddiLineStripped(fields: seq<string>)
    requires fields == ["ADDI ", " R2 ", " R2 ", " 2"]
    ensures var line := Join(fields, ',');
      Strip(line) == line && line != [] && !StartsWith(line, '#')
  {
    var line := Join(fields, ',');
    JoinEnds(fields, ',');
    StripFixedPoint(line);
  }

  lemma AddiLineParsed(fields: seq<string>)
    requires fields == ["ADDI ", " R2 ", " R2 ", " 2"]
    ensures ProgramLine(Join(fields, ',')) == Some(Instruction("ADDI", ["R2", "R2", "2"]))
  {
    AddiLineCommaFree(fields);
    AddiLineStripped(fields);
    AddiLineParts();
    AddiLineOperands(StripAll(fields)[1..]);
    assert Upper("ADDI") == "ADDI";
    ProgramLineOfFields(fields);
  }

  /** No field of that line holds a comma. */
  lemma AddiLineCommaFree(fields: seq<string>)
    requires fields == ["ADDI ", " R2 ", " R2 ", " 2"]
    ensures forall i :: 0 <= i < |fields| ==> ',' !in fields[i]
  {
  }

  /** Its operand fields are all kept, in order. */
  lemma AddiLineOperands(ops: seq<string>)
    requires ops == ["R2", "R2", "2"]
    ensures KeepOperands(ops) == ops
  {
    assert Stripped("R2") && Stripped("2");
    KeepCleanOperands(ops);
  }
}
