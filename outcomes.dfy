/** Optional values, results, and the exceptions the simulator can raise. */
module Outcomes {

  datatype Option<+T> = None | Some(value: T)

  /** Why a Python ValueError was raised. */
  datatype Reason =
    | NotARegister    // parse_register: token does not start with R
    | NotAnInteger    // int(): token is not an integer literal
    | BadMemOperand   // _parse_mem_operand: not of the shape off(Rs)
    | OperandCount    // wrong number of values in a tuple unpacking

  /** The exceptions raised by the execution engine and its parsers. */
  datatype Fault =
    | ValueError(reason: Reason)
    | IndexError                         // a list index out of range
    | NotImplementedError(mnemonic: string)

  datatype Result<+T> = Ok(value: T) | Err(fault: Fault) {
    predicate IsFailure() { Err? }

    function PropagateFailure<U>(): Result<U>
      requires Err?
    {
      Err(fault)
    }

    function Extract(): T
      requires Ok?
    {
      value
    }
  }

  /** A non-empty set has a member, so a loop over a shrinking set can always pick one. */
  lemma SomeMember<T>(s: set<T>) returns (x: T)
    requires s != {}
    ensures x in s
  {
    if forall y :: y !in s {
      assert false;
    }
    x :| x in s;
  }
}
