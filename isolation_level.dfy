/** The isolation levels of a transaction, as in the int-backed enum
    TransactionIsolationLevelEnum. */
module IsolationLevels {
  import opened Wrappers

  datatype IsolationLevel = ReadCommitted | RepeatableRead | Serializable {

    /** The enum's backing value, written as a single byte in a TX_START request. */
    function Code(): (c: int)
      ensures 0 <= c <= 2
    {
      match this
      case ReadCommitted => 0
      case RepeatableRead => 1
      case Serializable => 2
    }
  }

  /** Partial inverse of Code: the case backed by `c`, if there is one. */
  function FromCode(c: int): (r: Option<IsolationLevel>)
    ensures r.Some? <==> 0 <= c <= 2
    ensures r.Some? ==> r.value.Code() == c
  {
    if c == 0 then Some(ReadCommitted)
    else if c == 1 then Some(RepeatableRead)
    else if c == 2 then Some(Serializable)
    else None
  }

  /** The wire codes of the three cases. */
  lemma WireCodes()
    ensures ReadCommitted.Code() == 0 && RepeatableRead.Code() == 1 && Serializable.Code() == 2
  {}

  /** Distinct cases have distinct codes. */
  lemma CodeInjective(a: IsolationLevel, b: IsolationLevel)
    requires a.Code() == b.Code()
    ensures a == b
  {}

  /** Decoding the code of a case gives that case back. */
  lemma FromCodeOfCode(l: IsolationLevel)
    ensures FromCode(l.Code()) == Some(l)
  {}
}
