# Covered Bridge Capital partner portal — a Dafny model

This project models the computational core of a small browser-based
bookkeeping tool for an investment partnership. It has two parts.

- **Login gate** (`login.dfy`, module `LandingPage`). A partner picks their
  name from a fixed roster of five and types the shared password. Submitting
  checks that both fields are filled in. It then schedules a deferred
  comparison of the password, which captures the name and password as they
  were at submission. A correct password hands the name to the login
  callback. A wrong one shows an error and ends the loading state.
- **Partnership tracker**. It holds the partners with their capital
  contributions, the recorded periods and the "record new period" form.
  - `allocation.dfy` (module `Allocation`) computes the figures:
    - the contributions' total;
    - each partner's ownership percentage, guarded against a zero total;
    - the monthly management fee, 2% a year charged as 1/12 per period;
    - net value and profit or loss;
    - each partner's share of that profit or loss and their resulting balance.
  - `tracker.dfy` (module `PartnershipTracker`) is the stateful part. Its class
    `Tracker` edits a partner, records a period (refusing it when the account
    value or the total contribution is 0), deletes periods and builds the CSV
    export row by row.
  - `csv.dfy` (module `CsvExport`) specifies the CSV export as a list of rows:
    - a period-summary table;
    - then a title and a partner-by-period detail table.

All amounts are exact `real`s. Rendering an amount with two decimals is a
parameter `fmt` of the export. Row numbers are rendered in decimal by
`NatToString`. The clock is represented by parameters: the `id` of a new
period (a millisecond timestamp in the application) and `today`'s date.

The login roster ("Juanny Smit", …) and the tracker's default partners
("George Bierwirth", …) are different lists. The logged-in name is only
displayed by the tracker and never used in its computations, so the two
modules do not depend on each other.

## Model

| member | source | states |
|---|---|---|
| Allocation.TotalContributionsAppend | src/components/PartnershipTracker.tsx:125-128 | The total contribution of a concatenation of partner lists is the sum of their totals. |
| Allocation.TotalContributionsUpdate | src/components/PartnershipTracker.tsx:125-128 | Replacing one partner changes the total by exactly the new contribution minus the old one. |
| Allocation.TotalContributionsZero | src/components/PartnershipTracker.tsx:125-128 | With no negative contribution, the total is non-negative, and it is 0 if and only if every contribution is 0. |
| Allocation.Ownership | src/components/PartnershipTracker.tsx:130-133 | The ownership is 0 when the total is 0. Otherwise, scaled by the total, it is the contribution times 100 (the contribution as a percentage of the total). |
| Allocation.Allocate | src/components/PartnershipTracker.tsx:160-172 | There is one allocation record per partner. |
| Allocation.AllocationForScaled | src/components/PartnershipTracker.tsx:160-163 | With a nonzero total, a record's ownership times the total is the contribution times 100. Its allocation times the total is the contribution times the profit or loss. |
| Allocation.OwnershipSumScaled | src/components/PartnershipTracker.tsx:160-172 | For any nonzero divisor, the sum of the records' ownerships times the divisor is 100 times the contributions' total. |
| Allocation.AllocationSumScaled | src/components/PartnershipTracker.tsx:160-172 | For any nonzero divisor, the sum of the records' allocations times the divisor is the profit or loss times the contributions' total. |
| Allocation.BalanceSumSplit | src/components/PartnershipTracker.tsx:160-172 | The balances add up to the total contribution plus the total allocation. |
| Allocation.OwnershipsSumTo100 | src/components/PartnershipTracker.tsx:130-133 | When the contributions' total is not 0, the partners' ownership percentages add up to exactly 100. |
| Allocation.NoCapitalNoOwnership | src/components/PartnershipTracker.tsx:130-131 | When the total is 0, every ownership and every allocation is 0, and each balance is the bare contribution. |
| Allocation.AllocationsSumToProfitLoss | src/components/PartnershipTracker.tsx:156-172 | When the total is not 0, the allocations add up to exactly the profit or loss. The balances add up to the total contribution plus the profit or loss. |
| Allocation.AllocationProportional | src/components/PartnershipTracker.tsx:160-171 | Each record carries its partner's name and contribution. Its allocation is proportional to the contribution (allocation × total = contribution × profit or loss), or 0 when the total is 0. Its balance is the contribution plus the allocation. |
| Allocation.NewPeriodFigures | src/components/PartnershipTracker.tsx:150-184 | A recorded period keeps the given id, date, notes, account value and a snapshot of the total contribution. Its fee is 1/600 of the account value (2% a year over 12 months). Net value plus fee is the account value, and the profit or loss is the net value minus the contributions. |
| Allocation.NewPeriodAllocations | src/components/PartnershipTracker.tsx:160-184 | A recorded period has one record per partner, with name and contribution copied and balance = contribution + allocation. The ownerships add up to 100, the allocations to the profit or loss, and the balances to the net value. |
| Allocation.WorkedExample | src/components/PartnershipTracker.tsx:149-184 | Contributions 1000/2000/2000 and a value of 5500 give a fee of 55/6, a profit of 2945/6, ownerships of 20/40/40 and allocations of 589/6 and 1178/6. |
| CsvExport.NatToString | src/components/PartnershipTracker.tsx:203 | A row number is written as a non-empty string of decimal digits with no leading zero. |
| CsvExport.NatToStringRoundTrip | src/components/PartnershipTracker.tsx:203 | Reading a written row number back gives the number. |
| CsvExport.NatToStringInjective | src/components/PartnershipTracker.tsx:203 | Different row numbers are written differently. |
| CsvExport.SummaryRowsAt | src/components/PartnershipTracker.tsx:202-204 | There is exactly one summary row per period. The k-th row is period k's summary, numbered k+1. |
| CsvExport.AllocationRowsAt | src/components/PartnershipTracker.tsx:211-213 | There is exactly one detail row per allocation record of a period, in the records' order. |
| CsvExport.DetailRowsCount | src/components/PartnershipTracker.tsx:210-214 | The number of detail rows is the number of allocation records over all periods. |
| CsvExport.DetailRowsAt | src/components/PartnershipTracker.tsx:210-214 | The detail rows are nested period by period, then partner by partner. The row of partner j of period k (numbered k+1) comes after the rows of all earlier periods. |
| CsvExport.CsvRowsLayout | src/components/PartnershipTracker.tsx:198-216 | The export is laid out as: the summary header, one summary row per period in order, the allocations title, the detail header, then the detail rows. |
| CsvExport.SummaryRowShape | src/components/PartnershipTracker.tsx:203 | A summary row starts with the period number and date. It ends with the notes, written verbatim between double quotes, followed by a newline. |
| CsvExport.DetailRowShape | src/components/PartnershipTracker.tsx:212 | A detail row starts with the period number, date and partner name, and ends with a newline. |
| CsvExport.CsvTextStartsWithHeader | src/components/PartnershipTracker.tsx:199-200 | The exported text starts with the summary header. |
| PartnershipTracker.UpdateById | src/components/PartnershipTracker.tsx:140-146 | The list keeps its length. Partners with another id are untouched, and those carrying the id get the edit. |
| PartnershipTracker.WithoutId | src/components/PartnershipTracker.tsx:195 | The result is no longer than the input and holds exactly the periods of the input whose id differs. |
| PartnershipTracker.Tracker.constructor | src/components/PartnershipTracker.tsx:67-77 | A fresh tracker holds the default roster, no periods, and an empty form dated today. |
| PartnershipTracker.Tracker.UpdatePartner | src/components/PartnershipTracker.tsx:135-147 | The partners become `UpdateById` of the old list. The periods and the form are unchanged. |
| PartnershipTracker.Tracker.AddPeriod | src/components/PartnershipTracker.tsx:149-192 | A period is refused, with its message, exactly when the entered value or the total contribution is 0, and then nothing changes. Otherwise exactly the new period is appended, the partners are kept, and the form is reset to today with blank value and notes. |
| PartnershipTracker.Tracker.DeletePeriod | src/components/PartnershipTracker.tsx:194-196 | The periods become those without the id. The partners and the form are unchanged. |
| PartnershipTracker.Tracker.GenerateCsvText | src/components/PartnershipTracker.tsx:198-217 | The text built row by row equals the specified export `CsvText` of the recorded periods. |
| PartnershipTracker.UpdateContributionTotal | src/components/PartnershipTracker.tsx:140-146 | Setting the contribution of the one partner with a given id changes the total contribution by the new amount minus the old. |
| PartnershipTracker.UpdateMissingId | src/components/PartnershipTracker.tsx:140-146 | An edit for an id no partner carries changes nothing. |
| PartnershipTracker.WithoutIdAppend | src/components/PartnershipTracker.tsx:195 | Deleting works piecewise on a concatenation, so the surviving periods keep their order. |
| PartnershipTracker.WithoutIdIdempotent | src/components/PartnershipTracker.tsx:195 | Deleting an id no period carries changes nothing, and deleting twice is the same as deleting once. |
| PartnershipTracker.DefaultPartnersRefuse | src/components/PartnershipTracker.tsx:50-56 | The default roster has a total contribution of 0, so a fresh tracker refuses to record a period. |
| LandingPage.LoginForm.constructor | src/components/LandingPage.tsx:20-23 | A fresh form has no name, no password, no error, is not loading, has nobody logged in and has nothing scheduled. |
| LandingPage.LoginForm.SelectPartner | src/components/LandingPage.tsx:99-102 | Choosing a roster name (or none) sets it and clears the error. Nothing else changes. |
| LandingPage.LoginForm.EnterPassword | src/components/LandingPage.tsx:130-133 | Typing sets the password and clears the error. Nothing else changes. |
| LandingPage.LoginForm.Submit | src/components/LandingPage.tsx:25-41 | A missing name is reported first, then a missing password, and neither starts loading or schedules anything. With both present the error is cleared, loading starts and one comparison of the current name and password is scheduled. Submitting never logs in by itself. |
| LandingPage.LoginForm.TimerFires | src/components/LandingPage.tsx:42-49 | The oldest scheduled comparison runs. With the shared password the captured name is logged in. Otherwise the wrong-password error is shown, loading stops, and nobody new is logged in. |
| LandingPage.LoginRound | src/components/LandingPage.tsx:25-50 | From a fresh form, choosing a roster name, typing the shared password, submitting and letting the timer fire logs that partner in. Any other non-empty password leaves nobody logged in and shows the wrong-password error. An empty password shows the missing-password error. |

## Left out

- Loading and saving the partners and periods in browser storage, with its status messages (PartnershipTracker.tsx:79-121): I/O.
- Downloading the CSV as a file and copying it to the clipboard (PartnershipTracker.tsx:219-240): browser I/O. The text they use is `GenerateCsvText`.
- Two-decimal rendering of amounts (`toFixed(2)`) and the currency display: floating-point formatting, represented by the `fmt` parameter.
- Floating point: amounts are exact reals, so rounding and NaN are not modelled.
- The `|| 0` fallback in the total: contributions are always numbers in the model. Only values read back from storage could be missing, and storage is not modelled.
- `Date.now()` and `new Date().toISOString()`: the clock is represented by the `id` and `today` parameters.
- The 500 ms delay of the login check: time is represented by an explicit `TimerFires` step.
- The session handling and the logout in src/app/page.tsx, and the unmounting of the login form once logged in, are not part of this model.
- Rendering (JSX), the latest-period summary cards, and the setters of the period form's date, value and notes fields: presentation, or plain field assignments.
- PartnershipTracker.Tracker.UpdatePartner: an id edit is modelled with an integer value, whereas the source writes whatever value the field supplies.
- Allocation.NewPeriodAllocations: does not repeat the per-record proportionality of the allocations; `AllocationProportional` states it for every record.
- CSV quoting: notes are written between quotes without escaping, exactly as the source does (`SummaryRowShape`). A note containing a quote or a newline therefore changes the row structure, and the model does not correct this.
