/** The `send` view: sends one validated cashcall by id, or every unsent
    validated cashcall, stamping each with today's date and a due date
    `DUE_DAYS` later. Bills are never touched. */
module Views {
  import opened Outcome
  import opened Models
  import opened Database

  /** The cashcall `c` once sent on `today`. */
  function Stamp(c: CashCall, today: Day): (r: CashCall)
    ensures r.sent && r.sentDate == Some(today) && r.dueDate == Some(today + DUE_DAYS)
    ensures r.investor == c.investor
  {
    c.(sent := true, sentDate := Some(today), dueDate := Some(today + DUE_DAYS))
  }

  /** A cashcall just sent on `sentOn` is overdue exactly when it is not
      fulfilled and `today` is past the `DUE_DAYS` grace period. */
  lemma StampedOverdue(c: CashCall, bills: seq<Bill>, cc: nat, sentOn: Day, today: Day)
    ensures Overdue(Stamp(c, sentOn), bills, cc, today) ==
      Ok(!CashcallFulfilled(bills, cc) && today > sentOn + DUE_DAYS)
  {
  }

  predicate Pending(cashcalls: seq<CashCall>, bills: seq<Bill>, id: nat)
  {
    id < |cashcalls| && !cashcalls[id].sent && Validated(bills, id)
  }

  /** The ids of the unsent, validated cashcalls, in increasing order. */
  function PendingIds(cashcalls: seq<CashCall>, bills: seq<Bill>): (r: seq<nat>)
    ensures forall id: nat :: id in r <==> Pending(cashcalls, bills, id)
    ensures forall j, k :: 0 <= j < k < |r| ==> r[j] < r[k]
    ensures forall k :: 0 <= k < |r| ==> r[k] < |cashcalls|
  {
    if cashcalls == [] then []
    else
      var last := |cashcalls| - 1;
      var init := cashcalls[..last];
      assert forall id: nat :: id < last ==> (Pending(init, bills, id) <==> Pending(cashcalls, bills, id));
      PendingIds(init, bills) + (if Pending(cashcalls, bills, last) then [last] else [])
  }

  lemma {:induction false} NoPendingIds(cashcalls: seq<CashCall>, bills: seq<Bill>)
    requires forall id: nat :: id < |cashcalls| ==> !Pending(cashcalls, bills, id)
    ensures PendingIds(cashcalls, bills) == []
  {
    if cashcalls != [] {
      var init := cashcalls[..|cashcalls| - 1];
      assert forall id: nat :: id < |init| ==> (Pending(init, bills, id) <==> Pending(cashcalls, bills, id));
      NoPendingIds(init, bills);
    }
  }

  /** The cashcalls after send-all: exactly the pending ones are stamped. */
  function SendAllSpec(cashcalls: seq<CashCall>, bills: seq<Bill>, today: Day): (r: seq<CashCall>)
    ensures |r| == |cashcalls|
    ensures forall i :: 0 <= i < |r| && Pending(cashcalls, bills, i) ==> r[i] == Stamp(cashcalls[i], today)
    ensures forall i :: 0 <= i < |r| && !Pending(cashcalls, bills, i) ==> r[i] == cashcalls[i]
  {
    seq(|cashcalls|, i requires 0 <= i < |cashcalls| =>
      if Pending(cashcalls, bills, i) then Stamp(cashcalls[i], today) else cashcalls[i])
  }

  /** After send-all no cashcall is both unsent and validated, every
      cashcall it sent falls due `DUE_DAYS` after it was sent, and one it
      did not send was already sent or is not validated. */
  lemma SendAllEmptiesQueue(cashcalls: seq<CashCall>, bills: seq<Bill>, today: Day)
    ensures var after := SendAllSpec(cashcalls, bills, today);
      PendingIds(after, bills) == [] &&
      (forall i :: 0 <= i < |after| && after[i] != cashcalls[i] ==>
         Pending(cashcalls, bills, i) && after[i].sentDate == Some(today) && after[i].dueDate == Some(today + DUE_DAYS)) &&
      (forall i :: 0 <= i < |after| ==> after[i].investor == cashcalls[i].investor)
  {
    var after := SendAllSpec(cashcalls, bills, today);
    var r := PendingIds(after, bills);
    assert forall id: nat :: id < |after| ==> !Pending(after, bills, id);
    NoPendingIds(after, bills);
  }

  /** Send-all changes nothing when nothing is pending. */
  lemma SendAllWithEmptyQueue(cashcalls: seq<CashCall>, bills: seq<Bill>, today: Day)
    requires PendingIds(cashcalls, bills) == []
    ensures SendAllSpec(cashcalls, bills, today) == cashcalls
  {
    var after := SendAllSpec(cashcalls, bills, today);
    forall i | 0 <= i < |cashcalls| ensures after[i] == cashcalls[i] {
      assert Pending(cashcalls, bills, i) ==> i in PendingIds(cashcalls, bills);
    }
  }

  /** `send`: with `cashcallId` the one cashcall, which must exist and be
      validated (it is re-stamped even if already sent); without it every
      pending cashcall, which fails when there is none. On success the ids
      sent are returned. */
  method Send(s: Store, cashcallId: Option<nat>, today: Day) returns (r: Result<seq<nat>>)
    requires s.Valid()
    modifies s
    ensures s.Valid()
    ensures s.investors == old(s.investors) && s.investments == old(s.investments) && s.bills == old(s.bills)
    ensures cashcallId.Some? && cashcallId.value >= |old(s.cashcalls)| ==>
      r == Err(NotFound) && s.cashcalls == old(s.cashcalls)
    ensures cashcallId.Some? && cashcallId.value < |old(s.cashcalls)| && !Validated(s.bills, cashcallId.value) ==>
      r == Err(NotValidated) && s.cashcalls == old(s.cashcalls)
    ensures cashcallId.Some? && cashcallId.value < |old(s.cashcalls)| && Validated(s.bills, cashcallId.value) ==>
      var id := cashcallId.value;
      r == Ok([id]) && s.cashcalls == old(s.cashcalls)[id := Stamp(old(s.cashcalls)[id], today)]
    ensures cashcallId.None? && PendingIds(old(s.cashcalls), s.bills) == [] ==>
      r == Err(NoValidatedCashcalls) && s.cashcalls == old(s.cashcalls)
    ensures cashcallId.None? && PendingIds(old(s.cashcalls), s.bills) != [] ==>
      r == Ok(PendingIds(old(s.cashcalls), s.bills)) &&
      s.cashcalls == SendAllSpec(old(s.cashcalls), s.bills, today)
  {
    if cashcallId.Some? {
      var id := cashcallId.value;
      if id >= |s.cashcalls| {
        return Err(NotFound);
      }
      if !Validated(s.bills, id) {
        return Err(NotValidated);
      }
      s.cashcalls := s.cashcalls[id := Stamp(s.cashcalls[id], today)];
      return Ok([id]);
    }
    var ids := PendingIds(s.cashcalls, s.bills);
    if ids == [] {
      return Err(NoValidatedCashcalls);
    }
    ghost var before := s.cashcalls;
    for k := 0 to |ids|
      invariant |s.cashcalls| == |before|
      invariant s.Valid()
      invariant s.investors == old(s.investors) && s.investments == old(s.investments) && s.bills == old(s.bills)
      invariant forall i :: 0 <= i < |before| && i in ids[..k] ==> s.cashcalls[i] == Stamp(before[i], today)
      invariant forall i :: 0 <= i < |before| && i !in ids[..k] ==> s.cashcalls[i] == before[i]
    {
      assert ids[..k + 1] == ids[..k] + [ids[k]];
      s.cashcalls := s.cashcalls[ids[k] := Stamp(s.cashcalls[ids[k]], today)];
    }
    assert ids[..|ids|] == ids;
    r := Ok(ids);
  }
}
