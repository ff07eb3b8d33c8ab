/** The app's signal handlers, each modelled together with the save that
    fires it: storing a new investor, storing a new investment, updating an
    investor (the active-flag toggle) and storing a bill (the ignore flag).
    The amounts the fee calculator computes are inputs. */
module Admin {
  import opened Outcome
  import opened Models
  import opened Database
  import opened Utils

  /** A cashcall sent on `today`, as the membership handlers create it. */
  function SentCashCall(investor: nat, today: Day): CashCall
  {
    CashCall(Some(today), Some(today + DUE_DAYS), true, investor)
  }

  /** The zero membership bill that marks a period as already billed: it is
      validated, ignored and fulfilled. */
  function Placeholder(investor: nat, cashcall: nat, today: Day): Bill
  {
    Bill(YEARLY, MEMBERSHIP, 0, investor, true, true, true, cashcall, today, None, None)
  }

  /** The dedicated cashcall of a placeholder bill holds that one bill,
      totals zero, is validated and fulfilled, and is never overdue. */
  lemma PlaceholderCashcall(bills: seq<Bill>, investor: nat, cc: nat, today: Day, later: Day)
    requires forall i :: 0 <= i < |bills| ==> bills[i].cashcall != cc
    ensures var bills' := bills + [Placeholder(investor, cc, today)];
      BillCount(bills', cc) == 1 && TotalAmount(bills', cc) == 0 && AmountPaid(bills', cc) == 0 &&
      Validated(bills', cc) && CashcallFulfilled(bills', cc) &&
      Overdue(SentCashCall(investor, today), bills', cc, later) == Ok(false)
  {
    var b := Placeholder(investor, cc, today);
    EmptyCashcall(bills, cc);
    QuantitiesAppend(bills, b, cc);
    ValidatedAppend(bills, b, cc);
  }

  /** No investor other than `self` has this email (the column is unique). */
  predicate EmailFree(investors: seq<Investor>, email: string, self: nat)
  {
    forall i :: 0 <= i < |investors| && i != self ==> investors[i].email != email
  }

  /** Saving a new investor, with the `bill_membership` post-save handler:
      the investor gets a sent cashcall holding one placeholder bill. A
      duplicate email is refused and nothing is stored. */
  method BillMembership(s: Store, investor: Investor, today: Day) returns (r: Result<nat>)
    requires s.Valid()
    modifies s
    ensures s.Valid()
    ensures !EmailFree(old(s.investors), investor.email, |old(s.investors)|) ==>
      r == Err(IntegrityError) && unchanged(s)
    ensures EmailFree(old(s.investors), investor.email, |old(s.investors)|) ==>
      var id := |old(s.investors)|;
      r == Ok(id) && s.investors == old(s.investors) + [investor] &&
      s.cashcalls == old(s.cashcalls) + [SentCashCall(id, today)] &&
      s.bills == old(s.bills) + [Placeholder(id, |old(s.cashcalls)|, today)] &&
      s.investments == old(s.investments)
  {
    var id := |s.investors|;
    if !EmailFree(s.investors, investor.email, id) {
      return Err(IntegrityError);
    }
    s.investors := s.investors + [investor];
    var cc := |s.cashcalls|;
    s.cashcalls := s.cashcalls + [SentCashCall(id, today)];
    s.bills := s.bills + [Placeholder(id, cc, today)];
    r := Ok(id);
  }

  /** The first-instalment bill of investment `id`, joining cashcall `cc`. */
  function FirstInstalment(investment: Investment, id: nat, cc: nat, toPay: Cents, today: Day): Bill
  {
    Bill(YEARLY, INVESTMENT, toPay, investment.investor, false, false, false, cc, today, Some(1), Some(id))
  }

  /** Saving a new investment, with the `bill_investment` post-save handler:
      the first instalment is billed into `get_cashcall(investor, false)`
      and the waived part is credited to the investment. `toPay` and
      `toWaive` are what the fee calculator returns for instalment 1. */
  method BillInvestment(s: Store, investment: Investment, toPay: Cents, toWaive: Cents, today: Day)
    returns (r: Result<nat>)
    requires s.Valid()
    modifies s
    ensures s.Valid()
    ensures investment.investor >= |old(s.investors)| ==> r == Err(IntegrityError) && unchanged(s)
    ensures investment.investor < |old(s.investors)| ==>
      var id := |old(s.investments)|;
      var p := Placed(old(s.cashcalls), old(s.bills), investment.investor, false);
      r == Ok(id) &&
      s.investments == old(s.investments) + [investment.(amountWaived := investment.amountWaived + toWaive)] &&
      s.cashcalls == p.cashcalls &&
      s.bills == old(s.bills) + [FirstInstalment(investment, id, p.id, toPay, today)] &&
      s.investors == old(s.investors)
  {
    if investment.investor >= |s.investors| {
      return Err(IntegrityError);
    }
    var id := |s.investments|;
    s.investments := s.investments + [investment];
    var cc := GetCashcall(s, investment.investor, false);
    s.bills := s.bills + [FirstInstalment(investment, id, cc, toPay, today)];
    s.investments := s.investments[id := investment.(amountWaived := investment.amountWaived + toWaive)];
    r := Ok(id);
  }

  /** The date of the investor's latest membership bill, if any. */
  function LatestMembershipDate(bills: seq<Bill>, investor: nat): (r: Option<Day>)
    ensures r.None? <==>
      forall i :: 0 <= i < |bills| ==> !(bills[i].billType == MEMBERSHIP && bills[i].investor == investor)
    ensures r.Some? ==>
      (exists i :: 0 <= i < |bills| && bills[i].billType == MEMBERSHIP && bills[i].investor == investor &&
         bills[i].date == r.value) &&
      (forall i :: 0 <= i < |bills| && bills[i].billType == MEMBERSHIP && bills[i].investor == investor ==>
         bills[i].date <= r.value)
  {
    if bills == [] then None
    else
      var last := |bills| - 1;
      var earlier := LatestMembershipDate(bills[..last], investor);
      assert forall i :: 0 <= i < last ==> bills[..last][i] == bills[i];
      if bills[last].billType == MEMBERSHIP && bills[last].investor == investor then
        if earlier.Some? && earlier.value > bills[last].date then earlier else Some(bills[last].date)
      else earlier
  }

  /** `pro_rata_days`: the days from the latest membership bill to today. */
  function ProRataDays(bills: seq<Bill>, investor: nat, today: Day): int
    requires LatestMembershipDate(bills, investor).Some?
  {
    today - LatestMembershipDate(bills, investor).value
  }

  predicate Deactivates(before: Investor, after: Investor)
  {
    before.activeMember && !after.activeMember
  }

  predicate Reactivates(before: Investor, after: Investor)
  {
    !before.activeMember && after.activeMember
  }

  /** The membership bill of a deactivation, for the pro-rata `amount`. */
  function ProRataBill(investor: nat, cashcall: nat, amount: Cents, today: Day): Bill
  {
    Bill(YEARLY, MEMBERSHIP, amount, investor, false, false, false, cashcall, today, None, None)
  }

  /** Updating investor `id` to `updated`, with the investor pre-save
      handler `bill_membership_active_toggle`. Deactivation bills the days
      since the latest membership bill, at `membershipDue(days)`, into
      `get_cashcall(id, false)`; reactivation opens a sent cashcall with a
      placeholder bill; any other update bills nothing. The handler's
      records are stored before the investor is written, so they stay when
      the write is refused for a duplicate email. */
  method InvestorActiveToggle(s: Store, id: nat, updated: Investor, today: Day, membershipDue: int -> Cents)
    returns (r: Result<()>)
    requires s.Valid()
    modifies s
    ensures s.Valid()
    ensures id >= |old(s.investors)| ==> r == Err(NotFound) && unchanged(s)
    ensures id < |old(s.investors)| && Deactivates(old(s.investors)[id], updated) &&
            LatestMembershipDate(old(s.bills), id).None? ==>
      r == Err(NoMembershipBill) && unchanged(s)
    ensures id < |old(s.investors)| &&
            !(Deactivates(old(s.investors)[id], updated) && LatestMembershipDate(old(s.bills), id).None?) ==>
      r == (if EmailFree(old(s.investors), updated.email, id) then Ok(()) else Err(IntegrityError))
    ensures r.Ok? ==> id < |old(s.investors)| && s.investors == old(s.investors)[id := updated]
    ensures !r.Ok? ==> s.investors == old(s.investors)
    ensures s.investments == old(s.investments)
    ensures id < |old(s.investors)| && Deactivates(old(s.investors)[id], updated) &&
            LatestMembershipDate(old(s.bills), id).Some? ==>
      var p := Placed(old(s.cashcalls), old(s.bills), id, false);
      var days := ProRataDays(old(s.bills), id, today);
      s.cashcalls == p.cashcalls &&
      s.bills == old(s.bills) + [ProRataBill(id, p.id, membershipDue(days), today)]
    ensures id < |old(s.investors)| && Reactivates(old(s.investors)[id], updated) ==>
      s.cashcalls == old(s.cashcalls) + [SentCashCall(id, today)] &&
      s.bills == old(s.bills) + [Placeholder(id, |old(s.cashcalls)|, today)]
    ensures id < |old(s.investors)| && old(s.investors)[id].activeMember == updated.activeMember ==>
      s.cashcalls == old(s.cashcalls) && s.bills == old(s.bills)
  {
    if id >= |s.investors| {
      return Err(NotFound);
    }
    if Deactivates(s.investors[id], updated) {
      var latest := LatestMembershipDate(s.bills, id);
      if latest.None? {
        return Err(NoMembershipBill);
      }
      var proRataDays := ProRataDays(s.bills, id, today);
      var cc := GetCashcall(s, id, false);
      var b := ProRataBill(id, cc, membershipDue(proRataDays), today);
      AppendBillWellFormed(s.investors, s.investments, s.cashcalls, s.bills, b);
      s.bills := s.bills + [b];
    } else if Reactivates(s.investors[id], updated) {
      var cc := |s.cashcalls|;
      AppendCashcallWellFormed(s.investors, s.investments, s.cashcalls, s.bills, SentCashCall(id, today));
      s.cashcalls := s.cashcalls + [SentCashCall(id, today)];
      AppendBillWellFormed(s.investors, s.investments, s.cashcalls, s.bills, Placeholder(id, cc, today));
      s.bills := s.bills + [Placeholder(id, cc, today)];
    }
    if !EmailFree(s.investors, updated.email, id) {
      return Err(IntegrityError);
    }
    s.investors := s.investors[id := updated];
    r := Ok(());
  }

  /** The bill stored when `submitted` replaces the stored bill `before`:
      turning `ignore` on zeroes the amount, whatever amount was submitted;
      every other field, and the amount in every other update, is kept. */
  function IgnoreRule(before: Bill, submitted: Bill): (r: Bill)
    ensures r.(amount := submitted.amount) == submitted
    ensures !before.ignore && submitted.ignore ==> r.amount == 0
    ensures !(!before.ignore && submitted.ignore) ==> r == submitted
  {
    if !before.ignore && submitted.ignore then submitted.(amount := 0) else submitted
  }

  /** After an update that turns `ignore` on, the bill is ignored and its
      amount is zero, and once an ignored bill has amount zero, updates
      that leave both `ignore` and the amount alone keep it so. */
  lemma IgnoredBillsStayZero(before: Bill, submitted: Bill)
    requires before.ignore ==> before.amount == 0
    requires submitted.ignore && (before.ignore ==> submitted.amount == before.amount)
    ensures IgnoreRule(before, submitted).ignore && IgnoreRule(before, submitted).amount == 0
  {
  }

  /** The rule zeroes the amount only on the transition: an update of an
      already ignored bill can store a non-zero amount. (A new bill is not
      passed through the rule at all; see `BillIgnoreToggle`.) */
  lemma IgnoreRuleOnlyOnTransition()
    ensures var b := Placeholder(0, 0, 0);
      IgnoreRule(b, b.(amount := 30000)).amount == 30000
  {
  }

  /** Saving a bill: a new one (no id) when `id` is None, otherwise an
      update of bill `id`, passed through the bill pre-save handler
      `bill_membership_active_toggle` (the `ignore` rule). */
  method BillIgnoreToggle(s: Store, id: Option<nat>, submitted: Bill) returns (r: Result<nat>)
    requires s.Valid()
    modifies s
    ensures s.Valid()
    ensures s.investors == old(s.investors) && s.investments == old(s.investments) &&
            s.cashcalls == old(s.cashcalls)
    ensures id.Some? && id.value >= |old(s.bills)| ==> r == Err(NotFound) && unchanged(s)
    ensures !(id.Some? && id.value >= |old(s.bills)|) &&
            !BillRefsOk(submitted, |s.investors|, |s.investments|, |s.cashcalls|) ==>
      r == Err(IntegrityError) && unchanged(s)
    ensures BillRefsOk(submitted, |s.investors|, |s.investments|, |s.cashcalls|) && id.None? ==>
      r == Ok(|old(s.bills)|) && s.bills == old(s.bills) + [submitted]
    ensures BillRefsOk(submitted, |s.investors|, |s.investments|, |s.cashcalls|) &&
            id.Some? && id.value < |old(s.bills)| ==>
      r == Ok(id.value) && s.bills == old(s.bills)[id.value := IgnoreRule(old(s.bills)[id.value], submitted)]
  {
    if id.Some? && id.value >= |s.bills| {
      return Err(NotFound);
    }
    if !BillRefsOk(submitted, |s.investors|, |s.investments|, |s.cashcalls|) {
      return Err(IntegrityError);
    }
    match id {
      case None =>
        r := Ok(|s.bills|);
        s.bills := s.bills + [submitted];
      case Some(i) =>
        s.bills := s.bills[i := IgnoreRule(s.bills[i], submitted)];
        r := Ok(i);
    }
  }
}
