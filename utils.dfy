/** `get_cashcall`: the cashcall a new bill of an investor joins. Among the
    investor's unsent cashcalls it keeps those whose validation status is
    the one asked for or that have no bills, and takes the first (in id
    order) with the most bills; if none is left it stores a new empty,
    unsent cashcall and takes that. */
module Utils {
  import opened Outcome
  import opened Models
  import opened Database

  /** Cashcall `id` is one `get_cashcall(investor, validated)` may return. */
  predicate Qualifies(cashcalls: seq<CashCall>, bills: seq<Bill>, investor: nat, validated: bool, id: nat)
  {
    id < |cashcalls| && cashcalls[id].investor == investor && !cashcalls[id].sent &&
    (Validated(bills, id) == validated || BillCount(bills, id) == 0)
  }

  /** The ids of the qualifying cashcalls, in increasing order. */
  function Candidates(cashcalls: seq<CashCall>, bills: seq<Bill>, investor: nat, validated: bool): (r: seq<nat>)
    ensures forall id :: id in r <==> Qualifies(cashcalls, bills, investor, validated, id)
    ensures forall j, k :: 0 <= j < k < |r| ==> r[j] < r[k]
    ensures forall k :: 0 <= k < |r| ==> r[k] < |cashcalls|
  {
    if cashcalls == [] then []
    else
      var last := |cashcalls| - 1;
      var init := cashcalls[..last];
      var earlier := Candidates(init, bills, investor, validated);
      assert forall id: nat :: id < last ==>
        (Qualifies(init, bills, investor, validated, id) <==> Qualifies(cashcalls, bills, investor, validated, id));
      earlier + (if Qualifies(cashcalls, bills, investor, validated, last) then [last] else [])
  }

  /** The position `sorted(cands, key=bill_count, reverse=True)[0]` comes
      from: a largest bill count, and the first one since the sort is
      stable. */
  function ChooseIndex(cands: seq<nat>, bills: seq<Bill>): (k: nat)
    requires cands != []
    ensures k < |cands|
    ensures forall j :: 0 <= j < |cands| ==> BillCount(bills, cands[j]) <= BillCount(bills, cands[k])
    ensures forall j :: 0 <= j < k ==> BillCount(bills, cands[j]) < BillCount(bills, cands[k])
  {
    if |cands| == 1 then 0
    else
      var k := ChooseIndex(cands[1..], bills);
      if BillCount(bills, cands[0]) >= BillCount(bills, cands[1 + k]) then 0 else 1 + k
  }

  /** The existing cashcall `get_cashcall` returns, or None when it has to
      create one. */
  function Resolve(cashcalls: seq<CashCall>, bills: seq<Bill>, investor: nat, validated: bool): (r: Option<nat>)
    ensures r.None? <==> forall id: nat :: !Qualifies(cashcalls, bills, investor, validated, id)
    ensures r.Some? ==> Qualifies(cashcalls, bills, investor, validated, r.value)
    ensures r.Some? ==> forall id: nat :: Qualifies(cashcalls, bills, investor, validated, id) ==>
      BillCount(bills, id) <= BillCount(bills, r.value)
    ensures r.Some? ==> forall id: nat :: Qualifies(cashcalls, bills, investor, validated, id) && id < r.value ==>
      BillCount(bills, id) < BillCount(bills, r.value)
  {
    var cands := Candidates(cashcalls, bills, investor, validated);
    if cands == [] then None
    else
      var k := ChooseIndex(cands, bills);
      FirstLargest(cands, bills, k);
      assert cands[k] in cands;
      Some(cands[k])
  }

  /** Over an increasing sequence of ids, the choice made by position is
      the choice made by id. */
  lemma FirstLargest(cands: seq<nat>, bills: seq<Bill>, k: nat)
    requires forall j, k :: 0 <= j < k < |cands| ==> cands[j] < cands[k]
    requires k < |cands|
    requires forall j :: 0 <= j < |cands| ==> BillCount(bills, cands[j]) <= BillCount(bills, cands[k])
    requires forall j :: 0 <= j < k ==> BillCount(bills, cands[j]) < BillCount(bills, cands[k])
    ensures forall id: nat :: id in cands ==> BillCount(bills, id) <= BillCount(bills, cands[k])
    ensures forall id: nat :: id in cands && id < cands[k] ==> BillCount(bills, id) < BillCount(bills, cands[k])
  {
    forall id: nat | id in cands
      ensures BillCount(bills, id) <= BillCount(bills, cands[k])
      ensures id < cands[k] ==> BillCount(bills, id) < BillCount(bills, cands[k])
    {
      var j :| 0 <= j < |cands| && cands[j] == id;
      if id < cands[k] {
        assert j < k;
      }
    }
  }

  /** The cashcall `get_cashcall` creates. */
  function NewCashCall(investor: nat): CashCall
  {
    CashCall(None, None, false, investor)
  }

  /** The cashcalls after a call of `get_cashcall`, and the id it returns. */
  datatype Placement = Placement(cashcalls: seq<CashCall>, id: nat)

  /** What `get_cashcall` does to the store: it returns an unsent cashcall
      of the investor that qualifies, and it adds one new empty cashcall
      exactly when no stored cashcall qualifies. */
  function Placed(cashcalls: seq<CashCall>, bills: seq<Bill>, investor: nat, validated: bool): (p: Placement)
    requires forall i :: 0 <= i < |bills| ==> bills[i].cashcall < |cashcalls|
    ensures p.id < |p.cashcalls| && p.cashcalls[p.id].investor == investor && !p.cashcalls[p.id].sent
    ensures Qualifies(p.cashcalls, bills, investor, validated, p.id)
    ensures Resolve(cashcalls, bills, investor, validated).Some? ==>
      p.cashcalls == cashcalls && Resolve(cashcalls, bills, investor, validated) == Some(p.id)
    ensures Resolve(cashcalls, bills, investor, validated).None? ==>
      p.cashcalls == cashcalls + [NewCashCall(investor)] && p.id == |cashcalls| &&
      BillCount(bills, p.id) == 0
  {
    match Resolve(cashcalls, bills, investor, validated)
    case Some(id) => Placement(cashcalls, id)
    case None =>
      BillCountZeroIff(bills, |cashcalls|);
      Placement(cashcalls + [NewCashCall(investor)], |cashcalls|)
  }

  /** Right after `get_cashcall` created a cashcall, a call for the same
      investor with either flag creates none, and with the same flag it
      returns the one just created. */
  lemma SecondCallCreatesNothing(cashcalls: seq<CashCall>, bills: seq<Bill>, investor: nat,
                                 validated: bool, again: bool)
    requires forall i :: 0 <= i < |bills| ==> bills[i].cashcall < |cashcalls|
    requires Resolve(cashcalls, bills, investor, validated).None?
    ensures var p := Placed(cashcalls, bills, investor, validated);
      Resolve(p.cashcalls, bills, investor, again).Some? &&
      Resolve(p.cashcalls, bills, investor, validated) == Some(p.id)
  {
    var p := Placed(cashcalls, bills, investor, validated);
    assert Qualifies(p.cashcalls, bills, investor, again, p.id);
    forall id: nat | Qualifies(p.cashcalls, bills, investor, validated, id) ensures id == p.id {
      if id < |cashcalls| {
        assert p.cashcalls[id] == cashcalls[id];
        assert Qualifies(cashcalls, bills, investor, validated, id);
      }
    }
  }

  /** `get_cashcall(investor, validated)`: looks up, or creates and stores,
      the cashcall a new bill of `investor` joins. */
  method GetCashcall(s: Store, investor: nat, validated: bool) returns (id: nat)
    requires s.Valid() && investor < |s.investors|
    modifies s
    ensures s.Valid()
    ensures Placed(old(s.cashcalls), old(s.bills), investor, validated) == Placement(s.cashcalls, id)
    ensures s.investors == old(s.investors) && s.investments == old(s.investments) && s.bills == old(s.bills)
  {
    var found := Resolve(s.cashcalls, s.bills, investor, validated);
    if found.Some? {
      id := found.value;
    } else {
      id := |s.cashcalls|;
      s.cashcalls := s.cashcalls + [NewCashCall(investor)];
    }
  }
}
