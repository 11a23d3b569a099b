/**
 * The backing store: a sparse map from addresses to values whose missing
 * addresses read as 0, and the translation of one line of a data text into
 * an (address, value) pair.
 */
module Memory {
  import opened Outcomes
  import opened Text
  import opened Integers

  /** The value the backing store holds at an address: the stored one, or 0 if it was never written. */
  function Lookup(memory: map<int, int>, address: int): int {
    if address in memory then memory[address] else 0
  }

  /** A write is seen by the next read at the same address and by no other address. */
  lemma ReadAfterWrite(memory: map<int, int>, address: int, value: int, other: int)
    ensures Lookup(memory[address := value], address) == value
    ensures other != address ==> Lookup(memory[address := value], other) == Lookup(memory, other)
  {
  }

  /** An address never written reads as 0. */
  lemma LookupDefault(address: int)
    ensures Lookup(map[], address) == 0
  {
  }

  class MemoryBus {
    var memory: map<int, int>

    constructor (memory: map<int, int>)
      ensures this.memory == memory
    {
      this.memory := memory;
    }

    /** read(address): the stored value, or 0; the store is not changed. */
    method Read(address: int) returns (value: int)
      ensures value == Lookup(memory, address)
    {
      if address in memory {
        value := memory[address];
      } else {
        value := 0;
      }
    }

    /** write(address, value): that address now holds value, every other one is as it was. */
    method Write(address: int, value: int)
      modifies this
      ensures memory == old(memory)[address := value]
    {
      memory := memory[address := value];
    }

    /** One iteration of load_from_file: parse a data line and store its pair. */
    method LoadLine(raw: string) returns (fault: Option<Fault>)
      modifies this
      ensures match DataLine(raw)
        case Err(f) => fault == Some(f) && memory == old(memory)
        case Ok(None) => fault == None && memory == old(memory)
        case Ok(Some((address, value))) => fault == None && memory == old(memory)[address := value]
    {
      var entry := DataLine(raw);
      match entry {
        case Err(f) =>
          fault := Some(f);
        case Ok(None) =>
          fault := None;
        case Ok(Some((address, value))) =>
          Write(address, value);
          fault := None;
      }
    }
  }

  /** The address field of a data line: base 2 if every character is 0 or 1, base 10 otherwise. */
  function Address(text: string): Result<int> {
    if AllBinary(text) then
      if text == [] then Err(ValueError(NotAnInteger)) else Ok(BinaryValue(text))
    else Int10(text)
  }

  /** The pair of a data line from its two stripped fields: the address first, then the decimal value. */
  function DataFields(addressText: string, valueText: string): Result<Option<(int, int)>> {
    var address :- Address(addressText);
    var value :- Int10(valueText);
    Ok(Some((address, value)))
  }

  /**
   * One line of a data text: blank lines and "#" comments give nothing;
   * otherwise exactly two comma-separated fields, the address and the value.
   */
  function DataLine(raw: string): Result<Option<(int, int)>> {
    var line := Strip(raw);
    if line == [] || StartsWith(line, '#') then Ok(None)
    else
      var fields := Split(line, ',');
      if |fields| != 2 then Err(ValueError(OperandCount))
      else DataFields(Strip(fields[0]), Strip(fields[1]))
  }

  /** A line "A,V" with comma-free, stripped, non-empty fields reads as DataFields(A, V). */
  lemma DataLineFields(a: string, v: string)
    requires a != [] && v != [] && Stripped(a) && Stripped(v)
    requires ',' !in a && ',' !in v && a[0] != '#'
    ensures DataLine(a + "," + v) == DataFields(a, v)
  {
    var line := a + "," + v;
    assert line == Join([a, v], ',');
    assert line[0] == a[0] && line[|line| - 1] == v[|v| - 1];
    StripFixedPoint(line);
    assert !StartsWith(line, '#');
    SplitJoin([a, v], ',');
    StripFixedPoint(a);
    StripFixedPoint(v);
  }

  /** A binary address, a comma and a decimal value read back as that pair. */
  lemma DataLineBinaryRoundTrip(address: nat, value: int)
    ensures DataLine(Binary(address) + "," + Show(value)) == Ok(Some((address, value)))
  {
    var a, v := Binary(address), Show(value);
    ShowCharacters(value);
    assert ',' !in a by { assert forall k :: 0 <= k < |a| ==> IsBinaryDigit(a[k]); }
    assert !IsSpace(a[0]) && !IsSpace(a[|a| - 1]);
    StrippedShow(value);
    DataLineFields(a, v);
    BinaryRoundTrip(address);
    Int10RoundTrip(value);
  }

  /** A decimal address that is not all 0s and 1s, a comma and a decimal value read back as that pair. */
  lemma DataLineDecimalRoundTrip(address: int, value: int)
    requires !AllBinary(Show(address))
    ensures DataLine(Show(address) + "," + Show(value)) == Ok(Some((address, value)))
  {
    var a, v := Show(address), Show(value);
    ShowCharacters(address);
    ShowCharacters(value);
    StrippedShow(address);
    StrippedShow(value);
    DataLineFields(a, v);
    Int10RoundTrip(address);
    Int10RoundTrip(value);
  }

}
