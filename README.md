# XBRL fact mapping, modelled in Dafny

This project models the fact-mapping engine of `ParseXBRL` in `financials/parse.go`. The engine turns a decoded
XBRL filing into a `Statement`. The filing is given as an ordered list of facts and a table of contexts. The
engine runs three blocks, and each is a method of module `Parse`:

1. `ResolveEndDate`: a loop over the facts that picks out the document period end date.
2. `MapFacts`: a loop that sends every valid fact to a case of the switch on its concept name.
   - Four identity concepts (`EntityRegistrantName`, `SecurityExchangeName`, `TradingSymbol`, `DocumentType`)
     are copied into the company profile or the form type, whatever their context.
   - Ten balance-sheet concepts are written to their field. A fact is used only when its context is an instant
     equal to the end date (an instant is a single-date period, section 4.7.2 of the XBRL 2.1 specification).
   - A numeric conversion failure on a fact that passed that filter ends the call with an error.
3. `DeriveMetrics`: it fills in unset current assets and current liabilities, then recomputes working capital.

`ParseXBRL` chains the three blocks. Each block is proved equal to a specification function:
`EndDate`, `Mapped` (a fold of `Step` that stops at the first error) and `Derive`. So `ParseXBRL` is proved to
return `ParseResult`, and module `ParseProperties` proves what the engine promises about `ParseResult`.

Modules:

- `Wrappers`: `Option` and `Result`.
- `Xbrl`: the decoded input.
  - `Fact(name, contextRef, valueStr, valid, numeric)`: `valid` stands for the library's `IsValid()`.
    `numeric` stands for `NumericValue()`, with `None` where that call fails.
  - `Context(instant)`: the instant of the context's period, if it has one.
- `Financials`: the records of `financials/financials.go` (`CompanyProfile`, `IncomeStatement`, `BalanceSheet`,
  `CashFlow`, `Statement`). Every field defaults to the Go zero value.
- `Parse`: the switch, the specification functions and the methods.
- `ParseProperties`: the lemmas.

The model follows what the code does, including where it may surprise a reader:

- The end-date loop has no `break`, so the last valid `DocumentPeriodEndDate` fact wins, not the first.
- Name, primary exchange and form type are overwritten by every fact of their concept, so the last one wins.
  Only the ticker keeps the first accepted value.
- An empty trading symbol passes the no-space test but leaves the ticker empty. A later symbol can still set it.
- The switch has ten context-filtered concepts (financials/parse.go:68-157). `BalanceSheet` in
  `financials/financials.go`:
  - It has no `FinancialInstrumentsOwnedAtFairValue`, `SegregatedCash` or `SecuritiesReceivedAsCollateral`
    field, yet `parse.go` writes and sums all three.
  - The model adds the three fields.
- A balance-sheet fact whose context is missing, or has no instant, is not skipped: the code dereferences a nil
  pointer there. The model makes this a precondition (`NoNilDereference`).
  - The precondition covers only the facts the loop reaches, which are those up to the first failing one.
- When no end date is found, the end date is `""`. A fact whose context instant is the empty string then passes
  the filter. `MissingPeriod` states the outcome when no such instant exists.

## Model

| member | source | states |
|---|---|---|
| Parse.ResolveEndDate | financials/parse.go:45-51 | the end-date loop returns `EndDate(facts)` |
| ParseProperties.EndDateIsLastValid | financials/parse.go:46-51 | the end date is the value of the last valid `DocumentPeriodEndDate` fact |
| ParseProperties.EndDateEmptyWhenAbsent | financials/parse.go:46-51 | without a valid `DocumentPeriodEndDate` fact the end date is `""` |
| ParseProperties.FirstCaseMatchesLabel | financials/parse.go:56-158 | a search of the case list returns the default or a case whose label is the name |
| ParseProperties.FirstCaseMissesOnlyUnlabelled | financials/parse.go:56-158 | a search falls to the default only when no listed label is the name |
| ParseProperties.CasesCoverConcepts | financials/parse.go:56-158 | every handled concept is a case of the switch |
| ParseProperties.ClassifyByLabel | financials/parse.go:56-158 | the switch picks a handled concept only by that concept's label; it falls to the default only when the name is no concept's label |
| Parse.SetField | financials/parse.go:68-157 | a balance case writes its value to its own field, and no other field it could write changes |
| Parse.MapFacts | financials/parse.go:54-160 | the dispatch loop, with its early error return, returns `Mapped(facts, contexts, endDate, now)` whenever no dereferenced context is missing or lacks an instant |
| Parse.MappedExtend | financials/parse.go:54-55 | the pass over one more fact is the pass so far followed by one step |
| Parse.MappedStopsAtError | financials/parse.go:72-74 | once a prefix fails, the whole pass fails with the same error |
| Parse.MappedOkReachesNoAbort | financials/parse.go:54-160 | while the pass is still going, no fact so far has failed |
| Parse.Derive | financials/parse.go:162-177 | a zero current assets becomes the component sum and a nonzero one is kept; the same holds for current liabilities and total liabilities; working capital is their difference; nothing else changes |
| Parse.DeriveMetrics | financials/parse.go:162-177 | the derivation block returns `Derive(s)` |
| Parse.ParseXBRL | financials/parse.go:28-180 | the whole engine returns `ParseResult(facts, contexts, now)` |
| ParseProperties.EndDateSkipsFact | financials/parse.go:47-51 | a fact that is not a valid `DocumentPeriodEndDate` fact does not change the end date |
| ParseProperties.MappedSkipsFact | financials/parse.go:54-160 | an invalid fact, or one whose concept is not in the switch, does not change the dispatch pass |
| ParseProperties.IgnoredFactChangesNothing | financials/parse.go:45-160 | removing an invalid fact, or a fact of an unhandled concept other than the end date, leaves the result of the call unchanged |
| ParseProperties.IdentityLastWinsLoop | financials/parse.go:56-67 | in the pass, name, exchange and form type hold the last valid fact of their concept |
| ParseProperties.IdentityUnsetLoop | financials/parse.go:56-67 | in the pass, an identity field with no valid fact of its concept stays `""` |
| ParseProperties.IdentityLastWins | financials/parse.go:56-67 | name, primary exchange and form type equal the value of the last valid fact of their concept, whatever its context |
| ParseProperties.IdentityUnsetWhenAbsent | financials/parse.go:56-67 | an identity field with no valid fact of its concept stays `""` |
| ParseProperties.TickerUnsetLoop | financials/parse.go:61-65 | in the pass, the ticker stays `""` without an accepted symbol |
| ParseProperties.TickerFirstAcceptedLoop | financials/parse.go:61-65 | in the pass, the ticker is the first accepted symbol |
| ParseProperties.TickerNoSpaceLoop | financials/parse.go:61-65 | in the pass, the ticker never contains a space |
| ParseProperties.TickerFirstAccepted | financials/parse.go:61-65 | the ticker is the first valid, non-empty, space-free trading symbol; later symbols never replace it |
| ParseProperties.TickerUnsetWhenNoneAccepted | financials/parse.go:61-65 | without such a symbol the ticker stays `""` |
| ParseProperties.TickerHasNoSpace | financials/parse.go:61-65 | the ticker never contains a space |
| ParseProperties.BalanceLastWinsLoop | financials/parse.go:68-157 | in the pass, a balance field holds the numeric value of the last valid fact of its concept whose instant is the end date |
| ParseProperties.BalanceUnsetLoop | financials/parse.go:68-157 | in the pass, a balance field with no such fact stays 0 |
| ParseProperties.BalanceLastWins | financials/parse.go:68-157 | each of the ten balance fields equals the numeric value of the last valid fact of its concept whose context instant is the end date |
| ParseProperties.BalanceUnsetWhenAbsent | financials/parse.go:68-157 | a balance field with no such fact stays 0; facts at other instants never reach it |
| ParseProperties.AbortFailsLoop | financials/parse.go:68-157 | a fact that passes the filter without a numeric value makes the pass fail |
| ParseProperties.NoAbortSucceedsLoop | financials/parse.go:68-157 | without such a fact the pass succeeds |
| ParseProperties.ParseFailsIffAbort | financials/parse.go:68-157 | the call fails if and only if some valid balance fact whose instant is the end date has no numeric value |
| ParseProperties.FirstAbortReported | financials/parse.go:68-157 | the error returned is the one for the first such fact |
| ParseProperties.ResidueLoop | financials/parse.go:54-160 | the pass writes no field outside the switch's targets |
| ParseProperties.DerivedMetrics | financials/parse.go:162-177 | on success, current assets is the sum of its eight components, current liabilities equals total liabilities, and working capital is their difference |
| ParseProperties.UntouchedFields | financials/parse.go:28-180 | on success, dates, income statement, cash flow, CIK, CUSIPs, FIGIs and every balance field outside the switch and the derivation keep their zero value; the processing date is the time of the call |
| ParseProperties.MissingPeriod | financials/parse.go:45-177 | with no end-date fact and no context instant `""`, the call succeeds and the whole balance sheet, derived metrics included, is the zero balance sheet |

## Left out

- Reading the file and decoding the XML (financials/parse.go:33-43) are I/O and calls into the xbrl-parser
  library. The model starts from the decoded facts and context table.
- `fact.IsValid()` and `fact.NumericValue()` belong to that library. They are the `valid` and `numeric` fields of a
  `Fact`. The error `NumericValue()` returns becomes `NumericValueError`, which carries the fact's concept name.
- `time.Now()` (financials/parse.go:30) is the `now` parameter.
- Logging through zerolog is left out. That includes the swapped log messages at financials/parse.go:91 and :100.
- Parse.Derive: the metrics are added and subtracted as exact `real` numbers. float64 rounding, infinities and NaN
  are not modelled.
- Parse.ParseXBRL: the nil-pointer panics are preconditions, not behaviour.
  - The panics are a missing context or a context without an instant, at financials/parse.go:70 and the nine
    parallel lines.
  - The model gives every fact a string `valueStr`. It assumes that the dereferences of `*fact.ValueStr` at
    financials/parse.go:49, 58, 60, 62 and 67 never meet a nil pointer, where the code would panic.
- The statement is built as a value and not through a pointer. Nothing else holds the pointer before the call
  returns, so no aliasing is lost.
- ParseProperties.ClassifyByLabel: it does not prove that every label selects its own case, which would mean the
  fourteen labels are pairwise distinct. The comparisons of those string literals exceed the verifier's budget.
- cmd/root.go is command-line wiring and is not part of this model.
- financials/statement_test.go and financials/financials_suite_test.go depend on a fixture file that is not
  available. The case at financials/statement_test.go:63-66 is labelled "current liabilities" but checks
  `CurrentAssets`.
