/** The four records of the invoicing app and the quantities derived from
    them. Dates are day numbers, money is whole cents. A cashcall's derived
    quantities are computed over the store's whole sequence of bills, taking
    the bills whose `cashcall` reference is the cashcall's id. */
module Models {
  import opened Outcome

  type Day = int
  type Cents = int

  /** Days between sending a cashcall and its due date. */
  const DUE_DAYS: int := 62

  const YEARLY: string := "Y1"
  const MEMBERSHIP: string := "MEMBERSHIP"
  const INVESTMENT: string := "INVESTMENT"

  datatype Investor = Investor(name: string, email: string, joinDate: Day, activeMember: bool)

  /** `feePercent` is in hundredths of a percent. `amountPaid` and
      `amountWaived` are stored fields, not sums over bills. */
  datatype Investment = Investment(
    name: string,
    dateCreated: Day,
    feePercent: int,
    totalAmount: Cents,
    amountPaid: Cents,
    amountWaived: Cents,
    totalInstalments: int,
    lastInstalment: int,
    investor: nat)

  datatype CashCall = CashCall(sentDate: Option<Day>, dueDate: Option<Day>, sent: bool, investor: nat)

  datatype Bill = Bill(
    frequency: string,
    billType: string,
    amount: Cents,
    investor: nat,
    validated: bool,
    ignore: bool,
    fulfilled: bool,
    cashcall: nat,
    date: Day,
    instalmentNo: Option<int>,
    investment: Option<nat>)

  // ---------------------------------------------------------------------
  // Referential integrity of the store

  predicate BillRefsOk(b: Bill, investors: nat, investments: nat, cashcalls: nat)
  {
    b.investor < investors && b.cashcall < cashcalls &&
    (b.investment.Some? ==> b.investment.value < investments)
  }

  /** Every foreign key names a record that exists. */
  predicate WellFormed(investors: seq<Investor>, investments: seq<Investment>,
                       cashcalls: seq<CashCall>, bills: seq<Bill>)
  {
    (forall i :: 0 <= i < |investments| ==> investments[i].investor < |investors|) &&
    (forall i :: 0 <= i < |cashcalls| ==> cashcalls[i].investor < |investors|) &&
    (forall i :: 0 <= i < |bills| ==> BillRefsOk(bills[i], |investors|, |investments|, |cashcalls|))
  }

  lemma AppendBillWellFormed(investors: seq<Investor>, investments: seq<Investment>,
                             cashcalls: seq<CashCall>, bills: seq<Bill>, b: Bill)
    requires WellFormed(investors, investments, cashcalls, bills)
    requires BillRefsOk(b, |investors|, |investments|, |cashcalls|)
    ensures WellFormed(investors, investments, cashcalls, bills + [b])
  {
    assert forall i :: 0 <= i < |bills| ==> (bills + [b])[i] == bills[i];
  }

  lemma AppendCashcallWellFormed(investors: seq<Investor>, investments: seq<Investment>,
                                 cashcalls: seq<CashCall>, bills: seq<Bill>, c: CashCall)
    requires WellFormed(investors, investments, cashcalls, bills)
    requires c.investor < |investors|
    ensures WellFormed(investors, investments, cashcalls + [c], bills)
  {
    assert forall i :: 0 <= i < |cashcalls| ==> (cashcalls + [c])[i] == cashcalls[i];
  }

  // ---------------------------------------------------------------------
  // Investment

  predicate InvestmentFulfilled(i: Investment)
  {
    i.amountPaid + i.amountWaived >= i.totalAmount
  }

  /** What remains to be paid, clamped at zero; zero exactly for a
      fulfilled investment. */
  function AmountLeft(i: Investment): (r: Cents)
    ensures r >= 0 && r >= i.totalAmount - (i.amountWaived + i.amountPaid)
    ensures r == 0 || r == i.totalAmount - (i.amountWaived + i.amountPaid)
    ensures r == 0 <==> InvestmentFulfilled(i)
  {
    var left := i.totalAmount - (i.amountWaived + i.amountPaid);
    if left > 0 then left else 0
  }

  /** Crediting a non-negative waiver never raises what is left, and lowers
      it by at most the credit. */
  lemma WaiverLowersAmountLeft(i: Investment, toWaive: Cents)
    requires toWaive >= 0
    ensures var j := i.(amountWaived := i.amountWaived + toWaive);
      AmountLeft(j) <= AmountLeft(i) <= AmountLeft(j) + toWaive &&
      (InvestmentFulfilled(i) ==> InvestmentFulfilled(j))
  {
  }

  // ---------------------------------------------------------------------
  // Cashcall

  /** The bills that reference cashcall `cc`, in store order. */
  function BillsOf(bills: seq<Bill>, cc: nat): (r: seq<Bill>)
    ensures |r| <= |bills|
    ensures forall b :: b in r <==> b in bills && b.cashcall == cc
  {
    if bills == [] then []
    else
      var init, last := bills[..|bills| - 1], bills[|bills| - 1];
      assert bills == init + [last];
      BillsOf(init, cc) + (if last.cashcall == cc then [last] else [])
  }

  function Total(bs: seq<Bill>): Cents
  {
    if bs == [] then 0 else Total(bs[..|bs| - 1]) + bs[|bs| - 1].amount
  }

  function PaidTotal(bs: seq<Bill>): Cents
  {
    if bs == [] then 0
    else PaidTotal(bs[..|bs| - 1]) + (if bs[|bs| - 1].fulfilled then bs[|bs| - 1].amount else 0)
  }

  function TotalAmount(bills: seq<Bill>, cc: nat): Cents
  {
    Total(BillsOf(bills, cc))
  }

  function AmountPaid(bills: seq<Bill>, cc: nat): Cents
  {
    PaidTotal(BillsOf(bills, cc))
  }

  function BillCount(bills: seq<Bill>, cc: nat): nat
  {
    |BillsOf(bills, cc)|
  }

  /** A cashcall with no bills is not validated. */
  predicate Validated(bills: seq<Bill>, cc: nat)
  {
    var own := BillsOf(bills, cc);
    own != [] && forall k :: 0 <= k < |own| ==> own[k].validated
  }

  predicate CashcallFulfilled(bills: seq<Bill>, cc: nat)
  {
    AmountPaid(bills, cc) >= TotalAmount(bills, cc)
  }

  /** `c` is the cashcall with id `cc`. Comparing a date with a missing
      due date is an error. */
  function Overdue(c: CashCall, bills: seq<Bill>, cc: nat, today: Day): (r: Result<bool>)
    ensures CashcallFulfilled(bills, cc) || !c.sent ==> r == Ok(false)
    ensures r.Err? <==> !CashcallFulfilled(bills, cc) && c.sent && c.dueDate.None?
    ensures r == Ok(true) <==>
      !CashcallFulfilled(bills, cc) && c.sent && c.dueDate.Some? && today > c.dueDate.value
  {
    if CashcallFulfilled(bills, cc) || !c.sent then Ok(false)
    else match c.dueDate
      case None => Err(IncomparableDueDate)
      case Some(due) => Ok(today > due)
  }

  // ---------------------------------------------------------------------
  // Lemmas about the cashcall quantities

  /** Adding one bill to the store adds it to its own cashcall's bills and
      to no other. */
  lemma BillsOfAppend(bills: seq<Bill>, b: Bill, cc: nat)
    ensures BillsOf(bills + [b], cc) == BillsOf(bills, cc) + (if b.cashcall == cc then [b] else [])
  {
    assert (bills + [b])[..|bills|] == bills;
  }

  lemma TotalsSnoc(bs: seq<Bill>, b: Bill)
    ensures Total(bs + [b]) == Total(bs) + b.amount
    ensures PaidTotal(bs + [b]) == PaidTotal(bs) + (if b.fulfilled then b.amount else 0)
  {
    assert (bs + [b])[..|bs|] == bs;
  }

  /** `total_amount`, `amount_paid` and `bill_count` as running sums over the
      store: each new bill adds its amount (its amount if fulfilled, one) to
      its own cashcall only. */
  lemma QuantitiesAppend(bills: seq<Bill>, b: Bill, cc: nat)
    ensures TotalAmount(bills + [b], cc) == TotalAmount(bills, cc) + (if b.cashcall == cc then b.amount else 0)
    ensures AmountPaid(bills + [b], cc) ==
      AmountPaid(bills, cc) + (if b.cashcall == cc && b.fulfilled then b.amount else 0)
    ensures BillCount(bills + [b], cc) == BillCount(bills, cc) + (if b.cashcall == cc then 1 else 0)
  {
    BillsOfAppend(bills, b, cc);
    var own := BillsOf(bills, cc);
    if b.cashcall == cc {
      TotalsSnoc(own, b);
    } else {
      assert own + [] == own;
    }
  }

  /** A new bill keeps its cashcall validated only if it is validated
      itself; it makes an empty cashcall validated exactly when it is. */
  lemma ValidatedAppend(bills: seq<Bill>, b: Bill, cc: nat)
    ensures Validated(bills + [b], cc) <==>
      if b.cashcall == cc then b.validated && (BillCount(bills, cc) == 0 || Validated(bills, cc))
      else Validated(bills, cc)
  {
    BillsOfAppend(bills, b, cc);
    var own := BillsOf(bills, cc);
    if b.cashcall == cc {
      var own' := own + [b];
      assert forall k :: 0 <= k < |own| ==> own'[k] == own[k];
      assert own'[|own|] == b;
    } else {
      assert own + [] == own;
    }
  }

  /** `bill_count` is zero exactly when no bill references the cashcall. */
  lemma BillCountZeroIff(bills: seq<Bill>, cc: nat)
    ensures BillCount(bills, cc) == 0 <==> forall i :: 0 <= i < |bills| ==> bills[i].cashcall != cc
  {
    var own := BillsOf(bills, cc);
    if own != [] {
      assert own[0] in own;
    } else {
      forall i | 0 <= i < |bills| ensures bills[i].cashcall != cc {
        assert bills[i] in bills;
      }
    }
  }

  /** `validated`: at least one bill references the cashcall and every bill
      that does is validated. */
  lemma ValidatedIff(bills: seq<Bill>, cc: nat)
    ensures Validated(bills, cc) <==>
      (exists i :: 0 <= i < |bills| && bills[i].cashcall == cc) &&
      (forall i :: 0 <= i < |bills| && bills[i].cashcall == cc ==> bills[i].validated)
  {
    var own := BillsOf(bills, cc);
    BillCountZeroIff(bills, cc);
    if Validated(bills, cc) {
      forall i | 0 <= i < |bills| && bills[i].cashcall == cc ensures bills[i].validated {
        assert bills[i] in own;
      }
    } else if own != [] {
      var k :| 0 <= k < |own| && !own[k].validated;
      assert own[k] in bills;
    }
  }

  lemma {:induction false} PaidTotalAtMostTotal(bs: seq<Bill>)
    requires forall k :: 0 <= k < |bs| ==> bs[k].amount >= 0
    ensures 0 <= PaidTotal(bs) <= Total(bs)
  {
    if bs != [] {
      PaidTotalAtMostTotal(bs[..|bs| - 1]);
    }
  }

  /** With non-negative amounts a cashcall is never paid beyond its total. */
  lemma AmountPaidAtMostTotal(bills: seq<Bill>, cc: nat)
    requires forall i :: 0 <= i < |bills| ==> bills[i].amount >= 0
    ensures 0 <= AmountPaid(bills, cc) <= TotalAmount(bills, cc)
  {
    var own := BillsOf(bills, cc);
    forall k | 0 <= k < |own| ensures own[k].amount >= 0 {
      assert own[k] in bills;
    }
    PaidTotalAtMostTotal(own);
  }

  lemma {:induction false} PaidTotalReachesTotal(bs: seq<Bill>)
    requires forall k :: 0 <= k < |bs| ==> bs[k].amount >= 0
    ensures PaidTotal(bs) >= Total(bs) <==> forall k :: 0 <= k < |bs| && !bs[k].fulfilled ==> bs[k].amount == 0
  {
    if bs != [] {
      var init := bs[..|bs| - 1];
      PaidTotalReachesTotal(init);
      PaidTotalAtMostTotal(init);
      assert forall k :: 0 <= k < |init| ==> init[k] == bs[k];
    }
  }

  /** With non-negative amounts a cashcall is fulfilled exactly when every
      bill of it that is not fulfilled has amount zero. */
  lemma FulfilledIffUnpaidAreZero(bills: seq<Bill>, cc: nat)
    requires forall i :: 0 <= i < |bills| ==> bills[i].amount >= 0
    ensures CashcallFulfilled(bills, cc) <==>
      forall i :: 0 <= i < |bills| && bills[i].cashcall == cc && !bills[i].fulfilled ==> bills[i].amount == 0
  {
    var own := BillsOf(bills, cc);
    forall k | 0 <= k < |own| ensures own[k].amount >= 0 {
      assert own[k] in bills;
    }
    PaidTotalReachesTotal(own);
    if CashcallFulfilled(bills, cc) {
      forall i | 0 <= i < |bills| && bills[i].cashcall == cc && !bills[i].fulfilled
        ensures bills[i].amount == 0
      {
        assert bills[i] in own;
        var k :| 0 <= k < |own| && own[k] == bills[i];
      }
    } else {
      var k :| 0 <= k < |own| && !own[k].fulfilled && own[k].amount != 0;
      assert own[k] in bills;
    }
  }

  /** An empty cashcall totals zero, is fulfilled and is not validated. */
  lemma EmptyCashcall(bills: seq<Bill>, cc: nat)
    requires forall i :: 0 <= i < |bills| ==> bills[i].cashcall != cc
    ensures BillCount(bills, cc) == 0 && TotalAmount(bills, cc) == 0 && AmountPaid(bills, cc) == 0
    ensures CashcallFulfilled(bills, cc) && !Validated(bills, cc)
  {
    BillCountZeroIff(bills, cc);
  }
}
