/** The concurrency modes of a transaction, as in the int-backed enum
    TransactionConcurrencyModeEnum. */
module ConcurrencyModes {
  import opened Wrappers

  datatype ConcurrencyMode = Optimistic | Pessimistic {

    /** The enum's backing value, written as a single byte in a TX_START request. */
    function Code(): (c: int)
      ensures 0 <= c <= 1
    {
      match this
      case Optimistic => 0
      case Pessimistic => 1
    }
  }

  /** Partial inverse of Code: the case backed by `c`, if there is one. */
  function FromCode(c: int): (r: Option<ConcurrencyMode>)
    ensures r.Some? <==> 0 <= c <= 1
    ensures r.Some? ==> r.value.Code() == c
  {
    if c == 0 then Some(Optimistic)
    else if c == 1 then Some(Pessimistic)
    else None
  }

  /** The wire codes of the two cases. */
  lemma WireCodes()
    ensures Optimistic.Code() == 0 && Pessimistic.Code() == 1
  {}

  /** Distinct cases have distinct codes. */
  lemma CodeInjective(a: ConcurrencyMode, b: ConcurrencyMode)
    requires a.Code() == b.Code()
    ensures a == b
  {}

  /** Decoding the code of a case gives that case back. */
  lemma FromCodeOfCode(m: ConcurrencyMode)
    ensures FromCode(m.Code()) == Some(m)
  {}
}
