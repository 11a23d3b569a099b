/**
 * The operand-token parsers of the execution engine (parse_register,
 * parse_int, _parse_mem_operand) and the per-line translation of a
 * program text line into an instruction record (the body of parse_program's loop).
 */
module Tokens {
  import opened Outcomes
  import opened Text
  import opened Integers

  /** A register name as the engine keys its register map: "R0" .. "R7", but any name starting with R is accepted. */
  type Register = string

  /** An instruction record: the mnemonic and its raw operand tokens. */
  datatype Instruction = Instruction(mnemonic: string, operands: seq<string>)

  /** parse_register: strip, upper-case, and demand a leading R. The register number is not checked. */
  function ParseRegister(token: string): Result<Register> {
    var t := Upper(Strip(token));
    if StartsWith(t, 'R') then Ok(t) else Err(ValueError(NotARegister))
  }

  /** A register name in the form parse_register returns. */
  predicate CanonicalRegister(r: string) {
    StartsWith(r, 'R') && Upper(r) == r && Stripped(r)
  }

  /** parse_register accepts a name unchanged exactly when it is already in canonical form. */
  lemma ParseRegisterFixedPoint(r: string)
    ensures ParseRegister(r) == Ok(r) <==> CanonicalRegister(r)
  {
    if CanonicalRegister(r) {
      StripFixedPoint(r);
    }
    if ParseRegister(r) == Ok(r) {
      assert r == Upper(Strip(r));
      StripShape(r);
      UpperIdempotent(Strip(r));
      UpperStrip(r);
      assert Strip(Upper(r)) == r;
    }
  }

  /** Whatever parse_register returns is canonical, so parsing it again gives it back. */
  lemma ParseRegisterIdempotent(token: string)
    requires ParseRegister(token).Ok?
    ensures CanonicalRegister(ParseRegister(token).value)
    ensures ParseRegister(ParseRegister(token).value) == ParseRegister(token)
  {
    var r := ParseRegister(token).value;
    UpperIdempotent(Strip(token));
    UpperStrip(Strip(token));
    StripIdempotent(token);
    assert Strip(r) == r;
    StripFixedPoint(r);
    ParseRegisterFixedPoint(r);
  }

  /** parse_int: a non-empty token of only 0s and 1s is base 2, anything else goes to int(). */
  function ParseInt(token: string): Result<int> {
    var t := Strip(token);
    if t != [] && AllBinary(t) then Ok(BinaryValue(t)) else Int10(t)
  }

  /** Binary renderings read back as their value. */
  lemma ParseIntBinary(n: nat)
    ensures ParseInt(Binary(n)) == Ok(n)
  {
    var s := Binary(n);
    assert !IsSpace(s[0]) && !IsSpace(s[|s| - 1]);
    StripFixedPoint(s);
    BinaryRoundTrip(n);
  }

  /** Decimal renderings read back as their value unless every digit is 0 or 1, when they read as base 2. */
  lemma ParseIntDecimal(n: int)
    ensures ParseInt(Show(n)) == if AllBinary(Show(n)) then Ok(BinaryValue(Show(n))) else Ok(n)
  {
    var s := Show(n);
    Int10RoundTrip(n);
    if n < 0 {
      assert s[0] == '-' && !IsSpace(s[0]);
      assert !IsSpace(Decimal(-n)[|Decimal(-n)| - 1]);
      assert s[|s| - 1] == Decimal(-n)[|Decimal(-n)| - 1];
    } else {
      DigitIsNotSpace(s[0]);
      DigitIsNotSpace(s[|s| - 1]);
    }
    StripFixedPoint(s);
  }

  /** The token "10" is two, not ten. */
  lemma ParseIntTen()
    ensures ParseInt("10") == Ok(2)
  {
    assert Binary(2) == Binary(1) + "0" == "10";
    ParseIntBinary(2);
  }

  /** parse_int fails only with a ValueError about the integer. */
  lemma ParseIntFault(token: string)
    requires ParseInt(token).Err?
    ensures ParseInt(token).fault == ValueError(NotAnInteger)
  {
  }

  /** _parse_mem_operand: "off(Rs)" split at the first "(", the trailing ")" dropped. */
  function ParseMemOperand(token: string): Result<(int, Register)> {
    var t := Strip(token);
    if '(' !in t || !EndsWith(t, ')') then Err(ValueError(BadMemOperand))
    else
      var i := FirstIndex(t, '(');
      MemOperandFields(t[..i], DropLast(t[i + 1..]))
  }

  /** s[:-1]: everything but the last character; the empty string stays empty. */
  function DropLast(s: string): string {
    if s == [] then [] else s[..|s| - 1]
  }

  /** The offset and the register of a memory operand, parsed in that order. */
  function MemOperandFields(offText: string, regText: string): Result<(int, Register)> {
    var off :- ParseInt(offText);
    var reg :- ParseRegister(regText);
    Ok((off, reg))
  }

  /** The fields of a memory operand fail only with a ValueError about the integer or the register. */
  lemma MemOperandFieldsFault(offText: string, regText: string)
    requires MemOperandFields(offText, regText).Err?
    ensures MemOperandFields(offText, regText).fault in {ValueError(NotAnInteger), ValueError(NotARegister)}
  {
    if ParseInt(offText).Err? {
      ParseIntFault(offText);
    }
  }

  /** A malformed shape, and only that, is reported as a bad memory operand. */
  lemma ParseMemOperandShape(token: string)
    ensures ParseMemOperand(token) == Err(ValueError(BadMemOperand))
        <==> '(' !in Strip(token) || !EndsWith(Strip(token), ')')
  {
    var t := Strip(token);
    if '(' in t && EndsWith(t, ')') {
      var i := FirstIndex(t, '(');
      var f := MemOperandFields(t[..i], DropLast(t[i + 1..]));
      assert ParseMemOperand(token) == f;
      if f.Err? {
        MemOperandFieldsFault(t[..i], DropLast(t[i + 1..]));
      }
    }
  }

  /** The text p(q) is stripped already and its first "(" is the one after p. */
  lemma MemOperandText(p: string, q: string)
    requires '(' !in p
    requires p == [] || !IsSpace(p[0])
    ensures var t := p + "(" + q + ")";
      && Strip(t) == t && '(' in t && EndsWith(t, ')')
      && FirstIndex(t, '(') == |p| && t[..|p|] == p && t[|p| + 1..|t| - 1] == q
  {
    var t := p + "(" + q + ")";
    assert t[0] == (if p == [] then '(' else p[0]);
    assert t[|t| - 1] == ')';
    StripFixedPoint(t);
    assert '(' in t by { assert t[|p|] == '('; }
    var i := FirstIndex(t, '(');
    assert t[..|p|] == p;
    assert i == |p|;
    assert t[i + 1..|t| - 1] == q;
  }

  /**
   * An offset text, "(", a register text and ")" parse as the offset and the
   * register, when the offset text holds no "(" and does not start with a space.
   */
  lemma ParseMemOperandParts(p: string, q: string)
    requires '(' !in p
    requires p == [] || !IsSpace(p[0])
    ensures ParseMemOperand(p + "(" + q + ")") == MemOperandFields(p, q)
  {
    var t := p + "(" + q + ")";
    MemOperandText(p, q);
    ParseMemOperandOfStripped(t);
  }

  lemma ParseMemOperandOfStripped(t: string)
    requires Strip(t) == t && '(' in t && EndsWith(t, ')')
    ensures |t| > 0 && FirstIndex(t, '(') < |t| - 1
    ensures ParseMemOperand(t) == MemOperandFields(t[..FirstIndex(t, '(')], t[FirstIndex(t, '(') + 1..|t| - 1])
  {
    var i := FirstIndex(t, '(');
    assert t[i] == '(' && t[|t| - 1] == ')';
    var u := t[i + 1..];
    assert |u| == |t| - i - 1 > 0;
    assert DropLast(u) == t[i + 1..|t| - 1];
    assert ParseMemOperand(t) == MemOperandFields(t[..i], DropLast(u));
  }

  /** A decimal offset and a canonical register name read back as themselves. */
  lemma ParseMemOperandRoundTrip(off: int, r: Register)
    requires !AllBinary(Show(off))
    requires CanonicalRegister(r)
    ensures ParseMemOperand(Show(off) + "(" + r + ")") == Ok((off, r))
  {
    var p := Show(off);
    ParseIntDecimal(off);
    ParseRegisterFixedPoint(r);
    ShowCharacters(off);
    if off >= 0 {
      DigitIsNotSpace(p[0]);
    }
    ParseMemOperandParts(p, r);
  }

  /** [p.strip() for p in parts] */
  function StripAll(parts: seq<string>): (r: seq<string>)
    ensures |r| == |parts|
    ensures forall i :: 0 <= i < |parts| ==> r[i] == Strip(parts[i])
  {
    if parts == [] then [] else [Strip(parts[0])] + StripAll(parts[1..])
  }

  /** [p for p in parts if p and p != ";"]: the operands kept, in order. */
  function KeepOperands(parts: seq<string>): (r: seq<string>)
    ensures forall p :: p in r <==> p in parts && p != [] && p != ";"
    ensures |r| <= |parts|
  {
    if parts == [] then []
    else if parts[0] != [] && parts[0] != ";" then [parts[0]] + KeepOperands(parts[1..])
    else KeepOperands(parts[1..])
  }

  /** The filter on one field: kept exactly when it is non-empty and not ";". */
  lemma KeepOperandsSingle(p: string)
    ensures KeepOperands([p]) == if p != [] && p != ";" then [p] else []
  {
    assert [p][1..] == [];
  }

  /** The filter distributes over concatenation, so the kept operands stay in their order. */
  lemma {:induction false} KeepOperandsAppend(a: seq<string>, b: seq<string>)
    ensures KeepOperands(a + b) == KeepOperands(a) + KeepOperands(b)
    decreases |a|
  {
    if a == [] {
      assert a + b == b;
    } else {
      assert (a + b)[0] == a[0];
      assert (a + b)[1..] == a[1..] + b;
      KeepOperandsAppend(a[1..], b);
    }
  }

  /** Dropping an empty or ";" field between two runs of fields keeps both runs' survivors, in order. */
  lemma KeepOperandsDropsField(a: seq<string>, x: string, b: seq<string>)
    requires x == [] || x == ";"
    ensures KeepOperands(a + [x] + b) == KeepOperands(a) + KeepOperands(b)
  {
    KeepOperandsAppend(a + [x], b);
    KeepOperandsAppend(a, [x]);
    KeepOperandsSingle(x);
  }

  /**
   * One line of a program text: blank lines and "#" comments give nothing;
   * otherwise the comma-separated fields, stripped, with the mnemonic upper-cased
   * and the empty and ";" operand fields dropped.
   */
  function ProgramLine(raw: string): Option<Instruction> {
    var line := Strip(raw);
    if line == [] || StartsWith(line, '#') then None
    else
      var parts := StripAll(Split(line, ','));
      Some(Instruction(Upper(parts[0]), KeepOperands(parts[1..])))
  }

  /** An operand field as it survives parse_program: stripped, non-empty, not ";", no comma. */
  predicate CleanOperand(op: string) {
    op != [] && op != ";" && Stripped(op) && ',' !in op
  }

  /** An instruction record that parse_program can produce. */
  predicate CleanInstruction(ins: Instruction) {
    && ins.mnemonic != [] && Stripped(ins.mnemonic) && Upper(ins.mnemonic) == ins.mnemonic
    && ',' !in ins.mnemonic && ins.mnemonic[0] != '#'
    && forall i :: 0 <= i < |ins.operands| ==> CleanOperand(ins.operands[i])
  }

  /** The program text line "MNEMONIC,OP1,...,OPn" of an instruction record. */
  function Render(ins: Instruction): string {
    Join([ins.mnemonic] + ins.operands, ',')
  }

  /** Every record parse_program makes has an upper-case mnemonic and clean operands. */
  lemma ProgramLineClean(raw: string)
    requires ProgramLine(raw).Some?
    ensures var ins := ProgramLine(raw).value;
      Upper(ins.mnemonic) == ins.mnemonic && ',' !in ins.mnemonic && Stripped(ins.mnemonic)
      && forall i :: 0 <= i < |ins.operands| ==> CleanOperand(ins.operands[i])
  {
    var line := Strip(raw);
    var split := Split(line, ',');
    var parts := StripAll(split);
    var ins := ProgramLine(raw).value;
    UpperIdempotent(parts[0]);
    UpperStrip(split[0]);
    StripIdempotent(split[0]);
    StripSubsequence(split[0]);
    UpperNoComma(parts[0]);
    StripShape(Upper(split[0]));
    forall i | 0 <= i < |ins.operands| ensures CleanOperand(ins.operands[i]) {
      var op := ins.operands[i];
      assert op in parts[1..];
      var k :| 0 <= k < |parts[1..]| && parts[1..][k] == op;
      assert op == Strip(split[k + 1]);
      StripShape(split[k + 1]);
      StripSubsequence(split[k + 1]);
    }
  }

  lemma UpperNoComma(s: string)
    requires ',' !in s
    ensures ',' !in Upper(s)
  {
    UpperShape(s);
    assert forall k :: 0 <= k < |s| ==> Upper(s)[k] == UpperChar(s[k]) != ',';
  }

  /** Every character of Strip(s) is a character of s. */
  lemma StripSubsequence(s: string)
    ensures forall c :: c in Strip(s) ==> c in s
  {
    var a := TrimStart(s);
    TrimStartShape(s);
    TrimEndShape(a);
    forall c | c in Strip(s) ensures c in s {
      var k :| 0 <= k < |Strip(s)| && Strip(s)[k] == c;
      assert a[k] == c;
      assert s[|s| - |a| + k] == c;
    }
  }

  lemma {:induction false} JoinEnds(parts: seq<string>, sep: char)
    requires |parts| > 0 && forall i :: 0 <= i < |parts| ==> parts[i] != []
    ensures var j := Join(parts, sep); |j| > 0 && j[0] == parts[0][0] && j[|j| - 1] == parts[|parts| - 1][|parts[|parts| - 1]| - 1]
  {
    if |parts| > 1 {
      var tail := parts[1..];
      JoinEnds(tail, sep);
      var rest := Join(tail, sep);
      var j := parts[0] + [sep] + rest;
      assert Join(parts, sep) == j;
      assert j[0] == parts[0][0];
      assert j[|j| - 1] == rest[|rest| - 1];
      assert tail[|tail| - 1] == parts[|parts| - 1];
    }
  }

  lemma {:induction false} KeepCleanOperands(ops: seq<string>)
    requires forall i :: 0 <= i < |ops| ==> CleanOperand(ops[i])
    ensures KeepOperands(ops) == ops
  {
    if ops != [] {
      KeepCleanOperands(ops[1..]);
    }
  }

  /** Rendering a record parse_program can produce and parsing the line gives the record back. */
  lemma ProgramLineRoundTrip(ins: Instruction)
    requires CleanInstruction(ins)
    ensures ProgramLine(Render(ins)) == Some(ins)
  {
    var fields := [ins.mnemonic] + ins.operands;
    assert forall i :: 0 <= i < |fields| ==> fields[i] != [] && Stripped(fields[i]) && ',' !in fields[i];
    var line := Render(ins);
    JoinEnds(fields, ',');
    StripFixedPoint(line);
    assert !StartsWith(line, '#');
    SplitJoin(fields, ',');
    var parts := StripAll(fields);
    forall i | 0 <= i < |fields| ensures parts[i] == fields[i] {
      StripFixedPoint(fields[i]);
    }
    assert parts == fields;
    assert parts[1..] == ins.operands;
    KeepCleanOperands(ins.operands);
  }

  /**
   * A line that is its comma-separated fields joined, already stripped and not a
   * comment: the mnemonic is the first field stripped and upper-cased, the
   * operands are the other fields stripped, empty and ";" ones dropped.
   */
  lemma ProgramLineOfFields(fields: seq<string>)
    requires |fields| > 0 && forall i :: 0 <= i < |fields| ==> ',' !in fields[i]
    requires Join(fields, ',') != [] && Strip(Join(fields, ',')) == Join(fields, ',') && !StartsWith(Join(fields, ','), '#')
    ensures ProgramLine(Join(fields, ',')) == Some(Instruction(Upper(Strip(fields[0])), KeepOperands(StripAll(fields)[1..])))
  {
    SplitJoin(fields, ',');
  }
}
