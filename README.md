# Billing documents of the invoicer app, modelled in Dafny

The invoicer app bills investors for membership fees and investment-fee
instalments. It groups the bills into *cashcalls*, which are sent to the
investor for payment. This project models the core of that engine:

- how a new bill picks the cashcall it joins (`get_cashcall`);
- the quantities derived from an investment and from a cashcall's bills;
- the signal handlers that create bills and cashcalls when investors and
  investments are saved, and the rule that zeroes a bill when it becomes
  ignored;
- the `send` view, which stamps validated cashcalls as sent.

The record store is the class `Database.Store`. It holds one sequence each of
investors, investments, cashcalls and bills. A record's id is its position in
its sequence, and a record that has no id yet is passed as `None`.
`Store.Valid()` states that every foreign key names a stored record.

Dates are integer day numbers, so the 62-day grace period is integer
addition. Money is integer cents. Today's date is a parameter of every
operation that reads the clock.

Modules, one per source file:

- `Outcome`: `Option`, `Result`, and the errors the operations can return.
- `Models` (invoice/models.py): the four records, foreign-key
  well-formedness, and `amount_left`, `fulfilled`, `total_amount`,
  `amount_paid`, `validated`, `overdue`, `bill_count` and `bills`, with their
  lemmas.
- `Database`: the store class.
- `Utils` (invoice/utils.py): the `get_cashcall` rule, stated as pure
  functions (`Candidates`, `ChooseIndex`, `Resolve`, `Placed`), and
  `GetCashcall`, the method that updates the store.
- `Admin` (invoice/admin.py): each signal handler together with the save that
  fires it.
- `Views` (invoice/views.py): `send`, with its send-all loop.

Choices that follow the code:

- `Investment.amount_paid` is a stored field (invoice/models.py:24), not a
  sum over the investment's bills; the bills are never added up into it.
- The comment at invoice/admin.py:96 reads as if an ignored bill always has
  amount 0. Bills are not kept at `ignore ⇒ amount == 0` in general. Only an update
  that switches `ignore` from false to true zeroes the amount. A new bill, or
  an update of a bill that is already ignored, keeps the submitted amount
  (`Admin.IgnoreRuleOnlyOnTransition`).
- Sending one cashcall by id does not check whether it was already sent, as
  the send-all branch does. An already-sent cashcall is stamped again, with a
  new sent date and due date.
- `bill_investment` bills instalment 1 but does not advance the
  investment's `last_instalment` counter, which stays at its stored value.
  The model leaves that field unchanged.

Other reading decisions:

- Cashcall querysets have no declared ordering. The model takes them in id
  order.
- Python's `sorted(..., reverse=True)` is stable. `get_cashcall` therefore
  returns the first cashcall, in that order, that has the most bills.
- A failed lookup by primary key (`objects.get`, `get_object_or_404`) is
  `NotFound`. A foreign key naming a missing record, or a duplicate investor
  email, is `IntegrityError`.
- On deactivation, `.first()` returns `None` when the investor has no
  membership bill, and reading `.date` from it raises. This is
  `NoMembershipBill`, and nothing is stored.
- `overdue` on a sent, unfulfilled cashcall with no due date compares a date
  with `None`, which raises. This is `IncomparableDueDate`.
- invoice/admin.py defines two module-level handlers named
  `bill_membership_active_toggle`: the Investor pre-save handler at line 59
  and the Bill pre-save handler at line 98. `@receiver` connects handlers
  through weak references by default, so once line 98 rebinds the name, the
  Investor handler may be collected and disconnected. In that case
  deactivating or reactivating an investor would store no bill. The model
  assumes instead that the Investor handler stays connected. This is what
  the comment at line 57 and the tests at invoice/tests.py:38-62 expect, so
  `Admin.InvestorActiveToggle` models the intended behaviour, which may
  differ from what the program does.
- An investor update refused for a duplicate email keeps the bills and
  cashcalls its pre-save handler already stored. Saves are not wrapped in a
  transaction.

## Model

| member | source | states |
|---|---|---|
| `Models.AmountLeft` | invoice/models.py:30-36 | `amount_left` is `max(total − (waived + paid), 0)`: never negative, and 0 exactly when the investment is `fulfilled` (`paid + waived >= total`) |
| `Models.WaiverLowersAmountLeft` | invoice/admin.py:54 | crediting a non-negative waiver lowers `amount_left` by at most the credit, never raises it, and keeps a fulfilled investment fulfilled |
| `Models.InvestmentFulfilled` | invoice/models.py:34-36 | defined by its body, `paid + waived >= total`; characterised by `Models.AmountLeft` (zero exactly when it holds) and `Models.WaiverLowersAmountLeft` |
| `Models.BillsOf` | invoice/models.py:74-76 | a cashcall's `bills` are exactly the stored bills that reference it |
| `Models.TotalAmount` | invoice/models.py:48-50 | defined by its body, the sum of the amounts in `BillsOf`; characterised by `Models.QuantitiesAppend` and `Models.EmptyCashcall` |
| `Models.AmountPaid` | invoice/models.py:52-54 | defined by its body, the sum of the amounts of the fulfilled bills in `BillsOf`; characterised by `Models.QuantitiesAppend` and `Models.AmountPaidAtMostTotal` |
| `Models.Validated` | invoice/models.py:56-58 | defined by its body, `all([...] or [False])` over `BillsOf`; characterised by `Models.ValidatedIff` and `Models.ValidatedAppend` |
| `Models.CashcallFulfilled` | invoice/models.py:60-62 | defined by its body, `amount_paid >= total_amount`; characterised by `Models.FulfilledIffUnpaidAreZero` |
| `Models.BillCount` | invoice/models.py:70-72 | defined by its body, the number of bills in `BillsOf`; characterised by `Models.BillCountZeroIff` and `Models.QuantitiesAppend` |
| `Models.BillsOfAppend` | invoice/models.py:74-76 | a newly stored bill joins its own cashcall's bills and no other cashcall's |
| `Models.QuantitiesAppend` | invoice/models.py:48-72 | `total_amount` sums the amounts of the cashcall's bills, `amount_paid` sums only the fulfilled ones, and `bill_count` counts them: each new bill adds to its own cashcall only |
| `Models.ValidatedAppend` | invoice/models.py:56-58 | a new bill leaves its cashcall validated only if the bill is validated; it makes an empty cashcall validated exactly when it is validated itself |
| `Models.BillCountZeroIff` | invoice/models.py:70-76 | `bill_count` is 0 exactly when no bill references the cashcall |
| `Models.ValidatedIff` | invoice/models.py:56-58 | `validated` holds exactly when at least one bill references the cashcall and every such bill is validated |
| `Models.AmountPaidAtMostTotal` | invoice/models.py:48-54 | with non-negative bill amounts, `0 <= amount_paid <= total_amount` |
| `Models.FulfilledIffUnpaidAreZero` | invoice/models.py:60-62 | with non-negative amounts, a cashcall is `fulfilled` exactly when each of its unfulfilled bills has amount 0 |
| `Models.EmptyCashcall` | invoice/models.py:48-62 | a cashcall with no bills has total 0, paid 0 and count 0, is fulfilled, and is not validated |
| `Models.Overdue` | invoice/models.py:64-68 | never overdue when fulfilled or unsent; otherwise overdue exactly when today is past the due date, and an error when there is no due date |
| `Utils.Qualifies` | invoice/utils.py:8-9 | defined by its body: the investor's own unsent cashcall whose `validated` equals the flag or whose `bill_count` is 0; characterised by `Utils.Candidates` and `Utils.Resolve` |
| `Utils.Candidates` | invoice/utils.py:8-9 | exactly the investor's unsent cashcalls whose `validated` equals the flag or that are empty, in increasing id order |
| `Utils.ChooseIndex` | invoice/utils.py:11 | the stable descending sort's first element: a candidate with the most bills, and no earlier candidate has as many |
| `Utils.Resolve` | invoice/utils.py:8-11 | None exactly when no cashcall qualifies; otherwise a qualifying cashcall (the investor's own, unsent, matching or empty) whose bill count is at least every qualifier's, and above that of every qualifier with a smaller id |
| `Utils.Placed` | invoice/utils.py:8-14 | the returned cashcall is the investor's, is unsent and qualifies; the store is unchanged when one qualified, and otherwise grows by exactly one empty, unsent cashcall, which is returned |
| `Utils.SecondCallCreatesNothing` | invoice/utils.py:9-14 | right after a call that created a cashcall, a call with either flag finds an existing one, and a call with the same flag returns the new one |
| `Utils.NewCashCall` | invoice/utils.py:12 | defined by its body: unsent, no sent or due date, for the investor; characterised by `Utils.Placed` |
| `Utils.GetCashcall` | invoice/utils.py:3-14 | the store's cashcalls and the returned id are those `Placed` gives; investors, investments and bills are untouched |
| `Admin.SentCashCall` | invoice/admin.py:19-24 | defined by its body: sent, sent today, due today + 62; characterised by `Admin.PlaceholderCashcall` and `Admin.BillMembership` |
| `Admin.Placeholder` | invoice/admin.py:25-34 | defined by its body: the Y1/MEMBERSHIP zero bill, validated, ignored and fulfilled; characterised by `Admin.PlaceholderCashcall` |
| `Admin.PlaceholderCashcall` | invoice/admin.py:19-36 | the placeholder's cashcall holds one bill, totals 0, is validated and fulfilled, and is never overdue |
| `Admin.BillMembership` | invoice/admin.py:16-36 | a new investor adds exactly one cashcall, sent today and due today + 62, and exactly one bill in it: Y1/MEMBERSHIP, amount 0, validated, ignored and fulfilled; a duplicate email stores nothing |
| `Admin.FirstInstalment` | invoice/admin.py:44-52 | defined by its body: the Y1/INVESTMENT bill of `to_pay`, instalment 1, for the investment; characterised by `Admin.BillInvestment` |
| `Admin.BillInvestment` | invoice/admin.py:39-55 | a new investment adds exactly one Y1/INVESTMENT bill: instalment 1, amount `to_pay`, in `get_cashcall(investor, False)`; its `amount_waived` grows by exactly `to_waive`; a missing investor stores nothing |
| `Admin.LatestMembershipDate` | invoice/admin.py:64 | None exactly when the investor has no membership bill; otherwise the date of one of them, and no membership bill of theirs is later |
| `Admin.ProRataDays` | invoice/admin.py:65 | defined by its body, today minus `Admin.LatestMembershipDate`; characterised by `Admin.LatestMembershipDate` and used in `Admin.InvestorActiveToggle` |
| `Admin.ProRataBill` | invoice/admin.py:67-73 | defined by its body: the Y1/MEMBERSHIP bill of the computed amount, not validated, ignored or fulfilled; characterised by `Admin.InvestorActiveToggle` |
| `Admin.InvestorActiveToggle` | invoice/admin.py:58-94 | deactivation adds one Y1/MEMBERSHIP bill for `today − latest membership date` days into `get_cashcall(investor, False)`; reactivation adds a sent cashcall due today + 62 holding one placeholder bill; other updates add nothing; a missing investor or membership bill changes nothing |
| `Admin.IgnoreRule` | invoice/admin.py:99-102 | switching `ignore` false→true stores amount 0 whatever amount was submitted; any other update stores the submitted bill unchanged |
| `Admin.IgnoredBillsStayZero` | invoice/admin.py:101-102 | `ignore ⇒ amount == 0` is kept by every update that submits an ignored bill, provided the stored bill met it and an update of an already ignored bill resubmits its amount |
| `Admin.IgnoreRuleOnlyOnTransition` | invoice/admin.py:101 | updating a bill that is already ignored keeps a non-zero submitted amount |
| `Admin.BillIgnoreToggle` | invoice/admin.py:97-102 | a new bill is stored as submitted; an update of bill `id` stores `IgnoreRule(old, submitted)`; a missing id or a dangling reference changes nothing |
| `Views.Stamp` | invoice/views.py:78-80 | a sent cashcall has `sent`, `sent_date = today` and `due_date = today + 62`, and keeps its investor |
| `Views.StampedOverdue` | invoice/views.py:78-80 | a cashcall sent on day t is overdue exactly when it is unfulfilled and today > t + 62 |
| `Views.Pending` | invoice/views.py:84 | defined by its body: an unsent, validated cashcall; characterised by `Views.PendingIds` and `Views.SendAllSpec` |
| `Views.PendingIds` | invoice/views.py:84 | exactly the ids of the unsent, validated cashcalls, in increasing order |
| `Views.NoPendingIds` | invoice/views.py:84-86 | when no cashcall is unsent and validated, the queue is empty |
| `Views.SendAllSpec` | invoice/views.py:88-92 | send-all stamps exactly the unsent, validated cashcalls and leaves every other cashcall as it was |
| `Views.SendAllEmptiesQueue` | invoice/views.py:84-93 | after send-all no cashcall is unsent and validated; every cashcall that changed was pending and is due 62 days after it was sent; every cashcall keeps its investor |
| `Views.SendAllWithEmptyQueue` | invoice/views.py:84-86 | send-all with an empty queue changes nothing |
| `Views.Send` | invoice/views.py:72-94 | by id: a missing or non-validated cashcall is refused with no change, and a validated one (sent or not) is stamped with no other cashcall changed; send-all: an empty queue is refused with no change, otherwise the loop yields `SendAllSpec`; bills are never modified |

## Left out

- `calc_amount_due_investment`, `calc_amount_due_membership` and `yearly_spend`: they are imported from invoice/utils.py, but the file shown defines only `get_cashcall`, so their formulas are not available. Their results are inputs: `toPay` and `toWaive` for the first instalment, and a function from pro-rata days to the membership amount.
- The schedule lookup, leap-year shifting and trailing-window spend that those calculators perform: they are not part of the modelled code.
- `generate` and `validate` in invoice/views.py: both are stubs that return a fixed text. Recurring generation is therefore absent from the modelled code.
- The REST viewsets, their query filters, the serializers and the URL routing: these are HTTP glue.
- The initial migration: it describes an older schema.
- Django's signal dispatch, ORM queries and HTTP responses. Each handler is a store method that includes the save that fires it. Response texts become `Result` values.
- Names, emails and free-text fields are carried but play no part in any rule, except email uniqueness.
- Validators on model fields (non-negative amounts, percent ranges): Django does not run them on a plain `save()`. Lemmas that need non-negative amounts require it explicitly.
- `Decimal` arithmetic: amounts are integer cents. `datetime` arithmetic: dates are day numbers.
- Concurrency: `get_cashcall`'s read-then-write and the non-transactional handlers run one at a time here. No interleaving is modelled.
