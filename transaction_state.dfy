/** The lifecycle states of a transaction handle, as in the int-backed enum
    TransactionStateEnum. */
module TransactionStates {
  import opened Wrappers

  datatype TransactionState = Inactive | Active | Closed {

    /** The enum's backing value, as reported by getTransactionState. */
    function Code(): (c: int)
      ensures 0 <= c <= 2
    {
      match this
      case Inactive => 0
      case Active => 1
      case Closed => 2
    }
  }

  /** Partial inverse of Code: the case backed by `c`, if there is one. */
  function FromCode(c: int): (r: Option<TransactionState>)
    ensures r.Some? <==> 0 <= c <= 2
    ensures r.Some? ==> r.value.Code() == c
  {
    if c == 0 then Some(Inactive)
    else if c == 1 then Some(Active)
    else if c == 2 then Some(Closed)
    else None
  }

  /** The wire codes of the three cases. */
  lemma WireCodes()
    ensures Inactive.Code() == 0 && Active.Code() == 1 && Closed.Code() == 2
  {}

  /** Distinct cases have distinct codes. */
  lemma CodeInjective(a: TransactionState, b: TransactionState)
    requires a.Code() == b.Code()
    ensures a == b
  {}

  /** Decoding the code of a case gives that case back. */
  lemma FromCodeOfCode(s: TransactionState)
    ensures FromCode(s.Code()) == Some(s)
  {}
}
