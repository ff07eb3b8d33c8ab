/** The record store the app's signal handlers and views read and write:
    one sequence per record kind, where a record's id is its position. */
module Database {
  import opened Models

  class Store {
    var investors: seq<Investor>
    var investments: seq<Investment>
    var cashcalls: seq<CashCall>
    var bills: seq<Bill>

    /** Every foreign key names a stored record. */
    ghost predicate Valid()
      reads this
    {
      WellFormed(investors, investments, cashcalls, bills)
    }

    constructor ()
      ensures Valid()
      ensures investors == [] && investments == [] && cashcalls == [] && bills == []
    {
      investors, investments, cashcalls, bills := [], [], [], [];
    }
  }
}
