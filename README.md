# cpu-sim in Dafny

A model of the core of **cpu-sim**, a small instruction-level simulator written in Python. The simulator is a toy CPU with:

- eight registers, R0 to R7, where R0 ignores writes;
- a program counter that counts instructions, not bytes;
- eleven instructions: ADD, ADDI, SUB, SLT, BNE, J, JAL, LW, SW, CACHE and HALT;
- a software-controlled write-back cache in front of a sparse backing store of integers.

Programs and data come from comma-separated text lines.

The model follows the Python code's own structure:

| file | models |
|---|---|
| `outcomes.dfy` | `Option`, `Result`, and the exceptions the code raises: `ValueError` with its reason, `IndexError`, and `NotImplementedError` with the mnemonic. |
| `text.dfy` | The Python string operations the parsers rely on: `strip` with Python's `isspace` set, `upper` on ASCII letters, `split` on one character, and one-character `startswith`/`endswith`. |
| `integers.dfy` | `int(s)` in base 10, the base-2 reading of a string of 0s and 1s, and decimal and binary renderings. The renderings are used to state round trips. |
| `tokens.dfy` | `parse_register`, `parse_int`, `_parse_mem_operand`, and the body of `parse_program`'s loop for one line. |
| `memory_bus.dfy` | The backing store: `Lookup` as a pure function, and the class `MemoryBus` whose `memory` map its methods update. It also has the body of `load_from_file`'s loop for one line. |
| `cache.dfy` | The cache policy as pure functions on a `CacheState` value, with lemmas about what reads observe. The class `Cache` holds `enabled` and `store` as fields in front of a `MemoryBus` object, and its methods are proved to do what the functions say. |
| `semantics.dfy` | The execution engine as pure functions on a `Machine` value: register access, fetch, the handlers, dispatch by mnemonic, `step`, and `run` with a step budget. It holds lemmas on the effect of every instruction, the exceptions raised, invariants a run keeps, and how runs compose. |
| `cpu.dfy` | The class `Processor` with `registers`, `pc` and `halted` as fields. Its methods mirror the engine's methods, loops included, and each is proved equal to its function in `Semantics`. |
| `scenarios.dfy` | The programs and data lines of the simulator's test suite, run through the model. |

How the Python behaviour appears in the model:

- **Exceptions** become `Err` values. A handler takes all its operands apart before it changes anything. So a failed handler leaves the machine as it was, apart from the counter, which `step` advances before dispatch. `Processor.Run` returns the exception of the step that raised it.
- **Dispatch.** `getattr(self, "_op_" + mnemonic)` is a lookup in the literal map `Handlers` from mnemonic to opcode. `Handler(op)` is the handler as a function value, applied to the operand tokens.
- **Side channels.** The `trace` flag and every `print` are left out, because they affect only the console.

## Model

| member | source | states |
|---|---|---|
| Text.TrimStartShape | src/cpu.py:14 | Removing leading spaces removes a prefix made only of spaces. What remains is a suffix of the input and does not start with a space. |
| Text.TrimEndShape | src/cpu.py:14 | Removing trailing spaces removes a suffix made only of spaces. What remains is a prefix of the input and does not end with a space. |
| Text.StripShape | src/cpu.py:14 | `strip()` never lengthens a string, and its result has no space at either end. |
| Text.TrimStartOfClean | src/cpu.py:14 | A string that does not start with a space has nothing removed at its start. |
| Text.TrimEndOfClean | src/cpu.py:14 | A string that does not end with a space has nothing removed at its end. |
| Text.StripFixedPoint | src/cpu.py:14 | `strip()` leaves a string unchanged if and only if neither end is a space. |
| Text.StripIdempotent | src/cpu.py:21 | Stripping twice gives the same as stripping once. |
| Text.TrimStartSkips | src/cpu.py:75 | A run of spaces in front of a string that starts with a non-space is exactly what the left strip removes. |
| Text.TrimEndSkips | src/cpu.py:75 | A run of spaces after a string that ends with a non-space is exactly what the right strip removes. |
| Text.StripSurrounded | src/cpu_sim/memory_bus.py:26 | Stripping spaces + s + spaces gives back a non-empty stripped s. |
| Text.UpperShape | src/cpu.py:79 | `upper()` keeps the length and maps each character on its own. |
| Text.UpperIdempotent | src/cpu.py:79 | Upper-casing twice is the same as upper-casing once. |
| Text.UpperStrip | src/cpu.py:14 | `strip().upper()` equals `upper().strip()`. |
| Text.UpperKeepsSpace | src/cpu.py:14 | Upper-casing turns no space into a non-space and no non-space into a space. |
| Text.UpperTrimStart | src/cpu.py:14 | Upper-casing commutes with the left strip. |
| Text.UpperTrimEnd | src/cpu.py:14 | Upper-casing commutes with the right strip. |
| Text.Split | src/cpu.py:78 | `split(sep)` gives at least one part, no part contains the separator, and joining the parts with the separator gives the input back. |
| Text.SplitNoSeparator | src/cpu.py:78 | A string without the separator splits into itself alone. |
| Text.SplitAtSeparator | src/cpu.py:78 | Splitting a + sep + b gives a, followed by the split of b, when a has no separator. |
| Text.SplitJoin | src/cpu.py:78 | Joining separator-free parts and splitting again gives the parts back. |
| Text.FirstIndex | src/cpu.py:234 | The index of the first occurrence of a character: it holds the character, and no earlier position does. |
| Integers.DigitChar | src/cpu.py:28 | Each digit value has a digit character that reads back as that value. |
| Integers.Decimal | src/cpu.py:28 | A decimal rendering is non-empty, made of digits, and begins and ends with a digit. |
| Integers.Binary | src/cpu.py:23-25 | A binary rendering is non-empty and made of 0s and 1s only. |
| Integers.DecimalValue | src/cpu.py:28 | A decimal rendering is a well-formed digit string, and reading it in base 10 gives the number back. |
| Integers.BinaryRoundTrip | src/cpu.py:23-25 | Reading a binary rendering in base 2 gives the number back. |
| Integers.Zeros | src/cpu_sim/memory_bus.py:31 | k zero characters: length k, all binary digits. |
| Integers.LeadingZeros | src/cpu_sim/memory_bus.py:31 | Leading zeros keep a string binary and do not change its base-2 value, as in the address "00000001". |
| Integers.ZerosValue | src/cpu_sim/memory_bus.py:31 | A string of zeros reads as 0 in base 2. |
| Integers.Int10 | src/cpu.py:28 | `int(s)`: surrounding spaces are ignored, then an optional sign and a well-formed digit string (single underscores between digits) give the signed base-10 value. Anything else is a ValueError about an integer. |
| Integers.Int10RoundTrip | src/cpu.py:28 | `int(str(n)) == n` for every integer n, negative ones included, with no limit on the number of digits. |
| Integers.ShowCharacters | src/cpu.py:234 | `str(n)` contains no "(" and no ",", and starts with "-" or a digit. |
| Integers.StrippedShow | src/cpu.py:21 | `str(n)` is non-empty and has no surrounding spaces. |
| Tokens.ParseRegister | src/cpu.py:13-17 | `parse_register`: the token stripped and upper-cased is the register if it starts with R. Otherwise it is a ValueError about a register. |
| Tokens.ParseRegisterFixedPoint | src/cpu.py:13-17 | `parse_register` returns a token unchanged if and only if the token is already stripped, upper-case and starts with R. |
| Tokens.ParseRegisterIdempotent | src/cpu.py:13-17 | Whatever `parse_register` returns is in that canonical form, so parsing it again gives the same result. |
| Tokens.ParseInt | src/cpu.py:20-28 | `parse_int`: a stripped, non-empty token of only 0s and 1s is read in base 2. Every other token goes to `int()` in base 10, so its faults are those of `Int10`. |
| Tokens.ParseIntBinary | src/cpu.py:20-25 | A binary rendering of n parses as n. |
| Tokens.ParseIntDecimal | src/cpu.py:20-28 | A decimal rendering of n parses as n unless all its characters are 0 or 1. Then it is read in base 2. |
| Tokens.ParseIntTen | src/cpu.py:23-25 | The token "10" parses as two, not ten. |
| Tokens.ParseIntFault | src/cpu.py:20-28 | `parse_int` fails only with a ValueError about the integer. |
| Tokens.ParseMemOperand | src/cpu.py:226-236 | `_parse_mem_operand`: the stripped token must contain "(" and end with ")", or it is a ValueError about a bad memory operand. The text before the first "(" is the offset, read by `parse_int`. The text between that "(" and the last character is the register, read by `parse_register`. |
| Tokens.MemOperandFieldsFault | src/cpu.py:236 | The offset and register fields fail only with a ValueError about the integer or about the register. |
| Tokens.ParseMemOperandShape | src/cpu.py:231-233 | `_parse_mem_operand` reports a bad memory operand if and only if the stripped token lacks "(" or does not end with ")". |
| Tokens.MemOperandText | src/cpu.py:231-235 | In p(q) with no "(" in p, the first "(" is the one after p. The offset text is p and the register text is q. |
| Tokens.ParseMemOperandParts | src/cpu.py:226-236 | p + "(" + q + ")" parses exactly as the offset text p and the register text q. |
| Tokens.ParseMemOperandOfStripped | src/cpu.py:231-236 | On a stripped token of the right shape, the fields are split at the first "(" and the final ")" is dropped. |
| Tokens.ParseMemOperandRoundTrip | src/cpu.py:226-236 | str(off) + "(" + r + ")" parses as (off, r) for a canonical register r and an offset not written in 0s and 1s. |
| Tokens.StripAll | src/cpu.py:78 | Stripping every part keeps the count, and part i of the result is part i stripped. |
| Tokens.KeepOperands | src/cpu.py:81 | A field is kept if and only if it is non-empty and not ";". Nothing is added. |
| Tokens.KeepOperandsSingle | src/cpu.py:81 | A single field is kept exactly when it is non-empty and not ";". |
| Tokens.KeepOperandsAppend | src/cpu.py:81 | Filtering a + b gives the survivors of a followed by those of b, so the filter keeps the fields' order. |
| Tokens.KeepOperandsDropsField | src/cpu.py:80-81 | An empty or ";" field between two runs of fields is dropped, and the survivors on both sides stay in order, as for "HALT,;". |
| Tokens.ProgramLine | src/cpu.py:74-82 | One line of `parse_program`: a blank or "#" line gives nothing. Any other line is split at commas and every field stripped. The first field upper-cased is the mnemonic; the other fields, minus the empty ones and ";", are the operands, in order. |
| Tokens.ProgramLineClean | src/cpu.py:74-82 | Every instruction record a line yields has a stripped, upper-case, comma-free mnemonic. Its operands are stripped, non-empty, not ";" and comma-free. |
| Tokens.ProgramLineOfFields | src/cpu.py:75-82 | A stripped, non-comment line made of comma-free fields yields the first field stripped and upper-cased as the mnemonic. The operands are the other fields stripped, with empty and ";" ones dropped. |
| Tokens.StripSubsequence | src/cpu.py:78 | Every character of a stripped string occurs in the original. |
| Tokens.JoinEnds | src/cpu.py:78 | A join of non-empty parts starts with the first part's first character and ends with the last part's last character. |
| Tokens.KeepCleanOperands | src/cpu.py:81 | Filtering keeps every clean operand, in order. |
| Tokens.ProgramLineRoundTrip | src/cpu.py:74-82 | Rendering a record as "MNEMONIC,OP1,...,OPn" and parsing the line gives the record back. |
| Memory.Lookup | src/cpu_sim/memory_bus.py:38 | `memory.get(address, 0)`: the stored value, or 0 for an address never written. |
| Memory.ReadAfterWrite | src/cpu_sim/memory_bus.py:37-44 | After a write, a read at that address gives the value written. A read anywhere else gives what it gave before. |
| Memory.LookupDefault | src/cpu_sim/memory_bus.py:38 | An address never written reads as 0. |
| Memory.MemoryBus.constructor | src/cpu_sim/memory_bus.py:20 | A bus starts with the given memory. |
| Memory.MemoryBus.Read | src/cpu_sim/memory_bus.py:37-40 | `read` returns the stored value, or 0 when there is none, and changes nothing. |
| Memory.MemoryBus.Write | src/cpu_sim/memory_bus.py:42-44 | `write` updates that address only. |
| Memory.MemoryBus.LoadLine | src/cpu_sim/memory_bus.py:25-33 | One loader line: a blank or "#" line stores nothing, and so does a bad line, which raises its error. A data line stores its (address, value) pair. |
| Memory.Address | src/cpu_sim/memory_bus.py:31 | The address field is read in base 2 when every character is 0 or 1, otherwise by `int()` in base 10. An empty field is a ValueError. |
| Memory.DataFields | src/cpu_sim/memory_bus.py:31-32 | The address is read before the value. The value is read by `int()` in base 10, and the first fault wins. |
| Memory.DataLine | src/cpu_sim/memory_bus.py:26-33 | One loader line: a blank or "#" line gives nothing. A line whose comma split does not have exactly two fields is a ValueError. Otherwise the two stripped fields give an address and a value. |
| Memory.DataLineFields | src/cpu_sim/memory_bus.py:26-32 | The line "A,V" with clean fields reads as the address field A and the value field V. |
| Memory.DataLineBinaryRoundTrip | src/cpu_sim/memory_bus.py:26-32 | A binary address, a comma and a decimal value read back as that pair. |
| Memory.DataLineDecimalRoundTrip | src/cpu_sim/memory_bus.py:26-32 | A decimal address that is not all 0s and 1s, a comma and a decimal value read back as that pair. |
| Caching.CacheFlush | src/cpu_sim/cache.py:40-48 | `flush` empties the cache and keeps the mode. Afterwards the backing store alone shows every address as the cache showed it before. Addresses without an entry are untouched. |
| Caching.CacheSetMode | src/cpu_sim/cache.py:25-38 | `set_mode`: 0 flushes and then disables, 1 enables, 2 flushes, and any other code changes nothing. |
| Caching.CacheRead | src/cpu_sim/cache.py:50-62 | `read`: a disabled cache reads the backing store. An enabled cache returns its entry on a hit; on a miss it reads the backing store and keeps the value as an entry. |
| Caching.CacheWrite | src/cpu_sim/cache.py:64-69 | `write`: an enabled cache records the value as an entry and leaves the backing store alone; a disabled cache writes the backing store. |
| Caching.CoherentPreserved | src/cpu_sim/cache.py:25-69 | `read`, `write`, `flush` and `set_mode` keep a disabled cache empty. |
| Caching.ReadObservesView | src/cpu_sim/cache.py:50-62 | A read returns what the cache shows at the address. It changes nothing a later read observes, and leaves the backing store and the mode alone. |
| Caching.WriteUpdatesView | src/cpu_sim/cache.py:64-69 | After a write, the cache shows the written value at that address and everything else as before. |
| Caching.WriteTarget | src/cpu_sim/cache.py:64-69 | An enabled write leaves the backing store alone. A disabled write leaves the entries alone. |
| Caching.SetModeKeepsView | src/cpu_sim/cache.py:25-38 | No mode change alters what a read observes. |
| Caching.FlushIdempotent | src/cpu_sim/cache.py:40-43 | A second flush has no effect. |
| Caching.Apply | src/cpu_sim/cache.py:50-69 | A sequence of reads and writes performed on the cache in order, each on the state the previous one left. |
| Caching.ApplySplit | src/cpu_sim/cache.py:50-69 | Applying accesses is applying all but the last, then the last. |
| Caching.EnabledSparesBus | src/cpu_sim/cache.py:50-69 | While the cache is enabled, reads and writes never change the backing store, and the cache stays enabled. |
| Caching.ApplyCoherent | src/cpu_sim/cache.py:50-69 | Any sequence of reads and writes keeps a disabled cache empty. |
| Caching.LastSaveWins | src/cpu_sim/cache.py:50-69 | After any reads and writes, a read observes the last value written at the address, or what it observed before if nothing was written there. |
| Caching.WriteBackOnFlush | src/cpu_sim/cache.py:40-69 | Write-back: an enabled cache keeps the backing store's old contents through any accesses. A flush then gives each written address its last written value. |
| Caching.MissRoundTrip | src/cpu_sim/cache.py:25-62 | Enable, read an address, then disable. The cache ends empty and off, and the backing store holds the read value at that address. |
| Caching.Cache.constructor | src/cpu_sim/cache.py:21-23 | A new cache is disabled and empty, in front of the given bus. |
| Caching.Cache.SetMode | src/cpu_sim/cache.py:25-38 | `set_mode` on the object equals `CacheSetMode` on its state: 0 flushes and disables, 1 enables, 2 flushes, other codes do nothing. |
| Caching.Cache.Flush | src/cpu_sim/cache.py:40-48 | The loop writing each entry to the bus and then clearing gives `CacheFlush` of the old state. |
| Caching.Cache.Read | src/cpu_sim/cache.py:50-62 | `read` on the object gives `CacheRead`'s new state and value: hit, miss with fill, or bypass. |
| Caching.Cache.Write | src/cpu_sim/cache.py:64-69 | `write` on the object gives `CacheWrite` of the old state. |
| Semantics.Decode | src/cpu.py:109-112 | `getattr(self, f"_op_{instr}", None)`: a mnemonic finds a handler exactly when it is one of the eleven handler names, matched case-sensitively. |
| Semantics.HandlersByName | src/cpu.py:109 | Each opcode is found under its own mnemonic, and each mnemonic found names the opcode it finds. |
| Semantics.DecodeExactly | src/cpu.py:109-112 | A mnemonic dispatches to an opcode if and only if it is exactly that opcode's name. |
| Semantics.ReadReg | src/cpu.py:116-117 | `_read_reg`: a register's value, or 0 for a name never written. |
| Semantics.WriteReg | src/cpu.py:119-125 | `_write_reg`: a write to R0 is discarded; any other name, known or not, takes the value. |
| Semantics.ReadAfterWriteReg | src/cpu.py:116-125 | A register write is seen at its register unless that is R0, and nowhere else. |
| Semantics.ResetMachine | src/cpu.py:53-57 | `reset` keeps the set of register names, makes every register read 0, clears the counter and the halt flag, and leaves the cache. |
| Semantics.InitialSound | src/cpu.py:48-57 | A new engine and a reset engine have R0 at zero. |
| Semantics.Fetch | src/cpu.py:103 | `program[pc]` succeeds exactly for -len <= pc < len, giving the pc-th instruction for a non-negative pc, and raises IndexError otherwise. |
| Semantics.ParseRegisters | src/cpu.py:131 | `map(parse_register, tokens)` succeeds if and only if every token parses, giving each parse in order. |
| Semantics.RegisterTriple | src/cpu.py:131 | `rd, rs, rt = map(parse_register, ops)`: up to four tokens are parsed in order, the first bad one's fault wins, and any count other than three is a ValueError. |
| Semantics.RegisterTripleOk | src/cpu.py:131 | `rd, rs, rt = map(parse_register, ops)` succeeds if and only if there are exactly three tokens and each parses, giving them in order. |
| Semantics.ParseRegistersAfterGood | src/cpu.py:131 | The parse stops at the first bad token: after good tokens, the failure is that of the rest. |
| Semantics.RegisterTripleFourth | src/cpu.py:131 | A fourth operand is parsed before the count is checked. A bad fourth register is reported as such; a good one gives the count error. |
| Semantics.MemoryOperands | src/cpu.py:193-197 | LW/SW operands in the code's order: index `ops[0]`, parse it as a register, index `ops[1]`, parse it as a memory operand. The result is rt and the address rs + offset. |
| Semantics.MemoryOperandsOk | src/cpu.py:196-197 | When both operands parse, the result is the register and the address rs + offset. |
| Semantics.ExecAlu | src/cpu.py:129-161 | ADD, SUB and SLT: unpack three registers, then write rd with rs + rt, rs - rt, or 1 if rs < rt else 0. |
| Semantics.ExecAddi | src/cpu.py:137-145 | ADDI: all three operands are indexed first (IndexError), then rt, rs and imm are parsed in order, and rt takes rs + imm. |
| Semantics.ExecBne | src/cpu.py:163-175 | BNE: all three operands are indexed first, then parsed in order. If rs and rt differ, the offset is added to the already advanced counter. |
| Semantics.ExecJump | src/cpu.py:177-182 | J: the first operand, parsed as an integer, becomes the counter. |
| Semantics.ExecJal | src/cpu.py:184-191 | JAL: the target is parsed first. Then R7 takes the already advanced counter and the counter takes the target. |
| Semantics.ExecLoad | src/cpu.py:193-202 | LW: rt takes the value the cache reads at rs + offset, and the cache keeps the state that read leaves. |
| Semantics.ExecStore | src/cpu.py:204-212 | SW: the cache writes rt's value at rs + offset. |
| Semantics.ExecCache | src/cpu.py:214-217 | CACHE: the first operand, parsed as an integer, is passed to `set_mode`. |
| Semantics.ExecHalt | src/cpu.py:219-222 | HALT: the halted flag is set and nothing else changes. |
| Semantics.Execute | src/cpu.py:112 | `handler(ops)`: the handler of the decoded opcode, applied to the operands and the machine whose counter is already advanced. |
| Semantics.Step | src/cpu.py:102-112 | `step`: fetch `program[pc]` (IndexError out of range), advance the counter, then dispatch. An unknown mnemonic is NotImplementedError with the counter already advanced. A handler that raises leaves the machine as it was once the counter advanced. |
| Semantics.StepFault | src/cpu.py:102-112 | A failed step changes nothing but the counter. It advances the counter only if the fetch succeeded. |
| Semantics.StepNotImplemented | src/cpu.py:109-111 | A step raises NotImplementedError, naming the mnemonic, if and only if no handler has that name. |
| Semantics.ExecuteFaults | src/cpu.py:129-222 | Handlers raise only ValueError or IndexError. |
| Semantics.RegistersFault | src/cpu.py:13-17 | Parsing a token list fails only with a ValueError about a register. |
| Semantics.TripleFault | src/cpu.py:131 | The three-register unpacking fails only with a ValueError. |
| Semantics.MemoryOperandsFault | src/cpu.py:193-212 | LW/SW operands fail only with a ValueError or an IndexError. |
| Semantics.AluEffect | src/cpu.py:129-161 | ADD, SUB and SLT write the result into rd unless rd is R0. They change no other register, the counter, the flag or the cache. |
| Semantics.SetLessThan | src/cpu.py:159 | SLT gives 0 or 1, and 1 exactly when rs < rt. |
| Semantics.AddiEffect | src/cpu.py:137-145 | ADDI succeeds if and only if there are three operands that parse. It then writes rs + imm into rt, except into R0, and changes nothing else. |
| Semantics.BneEffect | src/cpu.py:163-175 | BNE moves the counter by the offset exactly when the registers differ, and changes nothing else. |
| Semantics.LoadEffect | src/cpu.py:193-202 | LW gives rt what the cache shows at rs + offset. It changes no other register, the counter, anything a later read observes, or the backing store. |
| Semantics.StoreEffect | src/cpu.py:204-212 | After SW, a read at rs + offset observes rt's value and every other address reads as before. The registers and the counter are unchanged. |
| Semantics.ExecuteKeepsCounter | src/cpu.py:129-222 | Only the BNE, J and JAL handlers change the counter they are given. |
| Semantics.StepFallsThrough | src/cpu.py:102-112 | A step of any instruction other than BNE, J or JAL leaves the counter at the next instruction. |
| Semantics.HaltStops | src/cpu.py:219-222 | HALT sets the flag, advances the counter and changes nothing else. |
| Semantics.StepDispatches | src/cpu.py:102-112 | An instruction named after a handler runs that handler on the machine with the advanced counter. |
| Semantics.StepAlu | src/cpu.py:129-161 | A step of ADD, SUB or SLT stores the operation's result in rd and moves to the next instruction. |
| Semantics.StepAddi | src/cpu.py:137-145 | A step of ADDI stores rs + imm in rt and moves to the next instruction. |
| Semantics.StepBne | src/cpu.py:163-175 | A step of BNE goes to pc + 1 + offset when the registers differ, and to pc + 1 otherwise. |
| Semantics.StepJump | src/cpu.py:177-182 | A step of J sets the counter to the target. |
| Semantics.StepJal | src/cpu.py:184-191 | A step of JAL links pc + 1 into R7 and sets the counter to the target. |
| Semantics.StepLoad | src/cpu.py:193-202 | A step of LW reads through the cache into rt and moves to the next instruction. |
| Semantics.StepStore | src/cpu.py:204-212 | A step of SW writes rt through the cache and moves to the next instruction. |
| Semantics.StepCache | src/cpu.py:214-217 | A step of CACHE applies `set_mode` with the code and moves to the next instruction. |
| Semantics.StepSparesBus | src/cpu.py:102-222 | While the cache is enabled, no step other than CACHE changes the backing store. |
| Semantics.ExecuteSparesBus | src/cpu.py:193-212 | With the cache enabled, no handler except CACHE writes the backing store. |
| Semantics.StepSound | src/cpu.py:102-125 | Every step keeps R0 at zero and a disabled cache empty. |
| Semantics.ExecuteSound | src/cpu.py:119-222 | Every successful handler keeps R0 at zero and a disabled cache empty. |
| Semantics.Iterate | src/cpu.py:89-96 | The loop never takes more steps than its budget. A loop without an exception ends stopped or with the budget spent. An exception comes after at least one step. |
| Semantics.IterateBudgetIrrelevant | src/cpu.py:91-94 | A loop that ended early ends the same way under any larger budget. |
| Semantics.IterateCompose | src/cpu.py:89-96 | Looping for a + b steps is looping for a, then for b from where that stopped. |
| Semantics.IterateStep | src/cpu.py:91-96 | A loop that can step takes that step first, ending there if the step raised. |
| Semantics.IterateThree | src/cpu.py:91-96 | Three fault-free steps onto a stopped machine make a loop of three steps. |
| Semantics.IterateKeeps | src/cpu.py:89-96 | A property that every step keeps holds where the loop stops. |
| Semantics.Run | src/cpu.py:89-100 | `run` with a budget takes at most that many steps. It ends halted, with the counter outside the program, or with the budget spent, unless a step raised. |
| Semantics.RunStops | src/cpu.py:91-94 | A halted machine, a counter outside the program, or a zero budget means no step is taken. |
| Semantics.RunStep | src/cpu.py:91-96 | One turn of the loop: the step, then the rest of the run with one fewer step of budget. |
| Semantics.RunAdvance | src/cpu.py:91-96 | The loop's bookkeeping: after a step, the whole run's outcome is the outcome of the rest, one step later. |
| Semantics.RunBudgetIrrelevant | src/cpu.py:89-96 | A run that stopped on its own ends the same under any larger `max_steps`. |
| Semantics.RunCompose | src/cpu.py:89-96 | Running a + b steps is running a steps and then b more from where that stopped. |
| Semantics.RunSound | src/cpu.py:89-125 | A run keeps R0 at zero and a disabled cache empty. |
| Semantics.RunHalted | src/cpu.py:91 | A halted machine does not run. |
| Cpu.Processor.constructor | src/cpu.py:47-50 | A new engine has R0..R7 at zero, the counter at 0 and the flag clear. |
| Cpu.Processor.Reset | src/cpu.py:53-57 | The loop zeroing each register, then clearing the counter and the flag, gives `ResetMachine` of the old state. |
| Cpu.Processor.ReadReg | src/cpu.py:116-117 | `_read_reg` returns the register's value, or 0 for an unknown name. |
| Cpu.Processor.WriteReg | src/cpu.py:119-125 | `_write_reg` ignores R0 and otherwise writes the register. |
| Cpu.Processor.OpAlu | src/cpu.py:129-161 | `_op_ADD`, `_op_SUB` and `_op_SLT` on the object equal the ALU handler on its state, error cases included. |
| Cpu.Processor.OpAddi | src/cpu.py:137-145 | `_op_ADDI` on the object equals the ADDI handler, with IndexError for missing operands. |
| Cpu.Processor.OpBne | src/cpu.py:163-175 | `_op_BNE` on the object equals the BNE handler. |
| Cpu.Processor.OpJ | src/cpu.py:177-182 | `_op_J` on the object equals the J handler. |
| Cpu.Processor.OpJal | src/cpu.py:184-191 | `_op_JAL` on the object equals the JAL handler. |
| Cpu.Processor.MemoryTarget | src/cpu.py:195-197 | LW/SW operand parsing returns the register and the address rs + offset, or the first failure, in the engine's order. |
| Cpu.Processor.OpLw | src/cpu.py:193-202 | `_op_LW` on the object, through the Cache object, equals the LW handler. |
| Cpu.Processor.OpSw | src/cpu.py:204-212 | `_op_SW` on the object, through the Cache object, equals the SW handler. |
| Cpu.Processor.OpCache | src/cpu.py:214-217 | `_op_CACHE` on the object equals the CACHE handler. |
| Cpu.Processor.OpHalt | src/cpu.py:219-222 | `_op_HALT` sets the flag. |
| Cpu.Processor.Step | src/cpu.py:102-112 | `step` on the object equals `Step` on its state, for fetch failures, unknown mnemonics and each handler. |
| Cpu.Processor.Turn | src/cpu.py:95-96 | One turn of the loop keeps the run's outcome equal to the outcome of the rest, one step later. |
| Cpu.Processor.Run | src/cpu.py:89-100 | The `while` loop leaves the object in the state `Run` computes for the budget `max_steps`, and returns its exception. |
| Scenarios.RegisterLiteral | tests/test_cpu_exec.py:23 | A two-character name "R" + digit parses as itself. |
| Scenarios.DigitLiteral | tests/test_cpu_exec.py:23 | A one-digit token from 2 to 9 parses in base 10. |
| Scenarios.OneLiteral | tests/test_cpu_exec.py:46 | The token "1" parses as one. |
| Scenarios.EightOffR0 | tests/test_cpu_exec.py:75 | The operand "8(R0)" parses as offset 8 from R0. |
| Scenarios.RunThree | src/cpu.py:89-96 | Three fault-free steps ending halted make a run of three steps. |
| Scenarios.RunTwoMore | src/cpu.py:89-96 | Two fault-free steps in front of the rest of a run. |
| Scenarios.ScenarioA0 | tests/test_cpu_exec.py:23 | ADDI R1,R0,5 sets R1 to 5. |
| Scenarios.ScenarioA1 | tests/test_cpu_exec.py:24 | ADD R2,R1,R1 with R1 = 5 sets R2 to 10. |
| Scenarios.ScenarioA | tests/test_cpu_exec.py:12-30 | The first execution test: R1 = 5, R2 = 10 and halted after three steps. |
| Scenarios.ScenarioATokens | tests/test_cpu_exec.py:22-26 | That test's tokens parse as the scenario assumes. |
| Scenarios.ScenarioB0 | tests/test_cpu_exec.py:46 | ADDI R1,R0,1 sets R1 to 1. |
| Scenarios.ScenarioB1 | tests/test_cpu_exec.py:47 | BNE R1,R0,2 is taken, to index 4. |
| Scenarios.ScenarioB2 | tests/test_cpu_exec.py:50 | JAL 6 at index 4 links 5 into R7 and jumps to 6. |
| Scenarios.ScenarioBRun | tests/test_cpu_exec.py:33-54 | The branch-and-jump program runs in four steps through indices 0, 1, 4 and 6. |
| Scenarios.ScenarioB | tests/test_cpu_exec.py:33-59 | The branch-and-jump test: R1 = 1, R7 = 5, halted. R2 and R3 are untouched. |
| Scenarios.ScenarioBTokens | tests/test_cpu_exec.py:45-53 | That test's tokens parse as the scenario assumes. |
| Scenarios.ScenarioC0 | tests/test_cpu_exec.py:74 | CACHE 1 enables the cache. |
| Scenarios.EightAddress | tests/test_cpu_exec.py:75-77 | Tokens parsing as R1 and as 8(R0) address 8 whatever the registers hold, as long as R0 is 0. |
| Scenarios.ScenarioC1 | tests/test_cpu_exec.py:75 | LW R1,8(R0) through an empty enabled cache loads 10 and fills the cache. |
| Scenarios.ScenarioC2 | tests/test_cpu_exec.py:76 | ADDI R1,R1,3 makes R1 13. |
| Scenarios.ScenarioC3 | tests/test_cpu_exec.py:77 | SW R1,8(R0) puts 13 into the cache only. |
| Scenarios.ScenarioCFront | tests/test_cpu_exec.py:74-75 | The write-back program's first two steps. |
| Scenarios.ScenarioCBack | tests/test_cpu_exec.py:76-78 | The write-back program's last three steps. |
| Scenarios.ScenarioCRun | tests/test_cpu_exec.py:73-80 | The write-back program runs in five steps, ending with 13 at address 8 in the cache only. |
| Scenarios.ScenarioC | tests/test_cpu_exec.py:62-87 | The write-back test: after the run the store still reads 10 at address 8, and after a flush it reads 13. |
| Scenarios.ScenarioCTokens | tests/test_cpu_exec.py:73-79 | That test's tokens parse as the scenario assumes. |
| Scenarios.CacheWriteBackScenario | tests/test_cpu_exec.py:62-87 | The same test on the MemoryBus, Cache and Processor objects: 10 before the flush, 13 after, no exception. |
| Scenarios.CommentLine | tests/test_parsing.py:10 | The indented comment line "  # comment" yields no instruction. |
| Scenarios.AddiLineFields | tests/test_parsing.py:11 | The line "ADDI , R2 , R2 , 2" is its four padded fields joined with commas. |
| Scenarios.AddiLineParts | tests/test_parsing.py:11 | Those fields strip to ADDI, R2, R2 and 2. |
| Scenarios.AddiLineStripped | tests/test_parsing.py:11 | That line has no surrounding spaces and is not a comment. |
| Scenarios.AddiLineParsed | tests/test_parsing.py:11 | That line, as joined fields, yields ADDI with the operands R2, R2 and 2. |
| Scenarios.AddiLine | tests/test_parsing.py:11-21 | "ADDI , R2 , R2 , 2" yields ("ADDI", ["R2", "R2", "2"]). |
| Scenarios.CacheLine | tests/test_parsing.py:12-22 | "CACHE,1" yields ("CACHE", ["1"]). |
| Scenarios.HaltLine | tests/test_parsing.py:13-23 | "HALT,;" yields ("HALT", []): the ";" placeholder is dropped. |
| Scenarios.BinaryDataLine | tests/test_parsing.py:31 | The line "00000001,4" loads 4 at address 1. |
| Scenarios.DecimalDataLine | tests/test_parsing.py:32 | The line "16,99" loads 99 at address 16. |
| Scenarios.BinaryTwoDataLine | tests/test_parsing.py:33 | The line "00000010,5" loads 5 at address 2: the address is read in base 2, not as ten. |
| Scenarios.MemoryBusScenario | tests/test_parsing.py:27-49 | Loading the test's three lines and reading back gives 4 at 1, 99 at 16 and 5 at 2, with no fault. A write of 123 at 3 then reads back as 123. |

## Left out

- Console output: the `trace` flag and every `print` only write to the console.
- File handling: opening and enumerating the lines of a file. `parse_program` and `load_from_file` are modelled per line, by `Tokens.ProgramLine` and `Memory.MemoryBus.LoadLine`.
- Line numbers in messages: the message text of each exception is not modelled. A `Fault` records the exception's kind and reason, plus the mnemonic for NotImplementedError.
- `src/cpu_sim/main.py`, the command-line driver, is not part of this model.
- `run(program, max_steps=None)` is not modelled, because it may never end. `Run` takes a step budget: a negative `max_steps` allows no step. `RunBudgetIrrelevant` shows that a run which stops on its own ends the same under any larger budget. The scenarios for the tests that call `run(program)` use a budget in place of `None`: at least three steps for `ScenarioA`, at least four for `ScenarioB`, and at least five for the write-back scenario (`ScenarioC`, `CacheWriteBackScenario`).
- Semantics.Fetch: `program[pc]` with Python's negative indices is modelled. `run` never steps with the counter outside [0, len), so only a direct call to `step` can reach it.
- Register names: the Python code accepts any token that starts with "R" after strip and upper. An unknown name reads as 0, and a write to it adds it to the register map. The model does the same.
- Integers.Int10: only the ASCII forms of `int()` are modelled: sign, digits and single underscores between digits, with surrounding spaces. The model does not cover Unicode digits or other bases. `Int10` strips the same space set as `str.strip`, which is wider than the set `int()` skips (tab, newline, vertical tab, form feed, carriage return and space); for example `int("\x1c5")` raises while `Int10` reads 5. No caller sees the difference, because `parse_int` and the loader pass `int()` text that is already stripped.
- Integers.Int10: the limit on decimal digits (`sys.int_max_str_digits`, 4300 by default since CPython 3.11 and the 3.7.14, 3.8.14, 3.9.14 and 3.10.7 security releases) is not modelled. On those versions `int(s)` raises ValueError for a longer digit string, so `parse_int` and the loader's decimal address field and value field reject inputs the model accepts. Base-2 readings are not limited by CPython, and the model has no limit at all.
- Integers.Int10RoundTrip: holds for every integer only without that limit. On the versions above, `str(n)` raises ValueError for |n| >= 10^4300, so the round trip is promised there only for integers of at most 4300 digits.
- Text.Upper: only ASCII letters are upper-cased. Python's full Unicode case mapping is left out.
- Text.StartsWith and Text.EndsWith take one character, which is every use the code makes of them.
- Exception classes: faults are modelled as the kinds the code raises: ValueError (with the reason it is raised), IndexError and NotImplementedError. The messages are not modelled.
- Tokens.KeepOperands: its contract states membership and a length bound. That the kept operands keep their order, including when fields are dropped, is shown by `KeepOperandsSingle`, `KeepOperandsAppend` and `KeepOperandsDropsField`, not by this contract.
- Aliasing between objects: a `Processor` owns its `Cache`, and the `Cache` owns its `MemoryBus`. Sharing one bus between several caches is outside the model.
