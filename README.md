# A verified model of the core of `investments`

`investments` is a command-line tool that keeps the books of a private investor
with Russian tax residency. It reads the statements of several brokers, matches
every sale against the oldest open purchases (FIFO), converts amounts into
roubles at the Central Bank rates, computes the income taxes and their payment
days, emulates the brokers' commission plans, compares a portfolio with bank
deposits and inflation, and plans the trades that rebalance a portfolio
towards its configured weights within the restrictions the investor sets.

This project restates that core in Dafny and proves what it promises. It is
organised in modules that follow the program's own files:

- `Decimals`, `Dates`, `Currency`, `MultiCurrency`, `Converter`, `Sums`, `Texts`:
  decimal rounding half away from zero, the proleptic Gregorian calendar, cash
  amounts and multi-currency accounts, currency conversion and the string
  operations the parsers rely on.
- `Jurisdictions`, `TaxRates`, `Taxes`, `Localities`, `PaymentDays`,
  `LongTermOwnership`, `NetCalculator`: the tax of an income, the tax of a year's
  net profit, the tax payment days and the long-term ownership exemption.
- `Trades`, `Fifo`, `BrokerStatements`, `PartialStatements`, `StatementsMerging`,
  `Validators`, `Payments`, `CashFlowDates`, `CorporateActions`: the FIFO matching of
  sales, the broker statement with its ordering and validation rules, the merging of
  consecutive statements, the reversal of payments, and the Interactive Brokers cash
  flow and stock split bookkeeping.
- `Commissions`, `CommissionBuilders`, `IbPlan`, `TieredCommissions`: per-trade and
  cumulative commission plans, daily and monthly minimums, depositary fees and
  the fixed Interactive Brokers plan.
- `DepositEmulation`, `Inflation`, `InstrumentView`, `MergingConfig`, `CbrDeposits`:
  the emulated deposit with monthly capitalisation, inflation adjustment, the open
  position periods of an instrument, the performance-merging configuration and the
  Central Bank deposit-rate statistics.
- `Rebalancing`, `GroupRebalancing`: the restrictions of an asset tree and the
  four steps that rebalance one group of assets.
- `TimeParsing`, `RetestCli`: durations and user dates in the configuration, and the
  test selection of the regression test runner.

Parts of the program whose state changes step by step are classes and methods
with `modifies` clauses and loop invariants, proved against specification
functions; the rest are datatypes, functions and lemmas. Decimal numbers are
`real`s, every rounding is written out, statement dates are day numbers of the
Gregorian calendar, and a Rust `HashMap` is a Dafny `map` whose iteration order
is left open (every loop over one is proved for any order). A Rust `assert!` or
`panic!` is a `requires` on the caller; an `Err` the program returns is a
`Result` value carrying the program's message without its interpolated values.

Where the program's modules disagree with each other, the model follows the
code that runs:

- `src/commissions/builders.rs` fills the fields `tiers` and `monthly_depositary` that
  `src/commissions/mod.rs` no longer has; the builders are modelled on the fields
  that `mod.rs` reads (a `BTreeMap` of tiers and the `percent` option).
- `src/commissions/tiered.rs` is not compiled into the crate; it is modelled as
  written. Its test expects 68.45 + 16.57 = 85.02 for its example day, while the
  code as written computes 96.8259025 (`TieredCommissions.BcsDay`).
- `src/broker_statement/trades.rs` gives `StockSellSource` a share multiplier and a
  volume that the lots built in `mod.rs` (lines 322-329) do not set; the model follows
  `trades.rs` and fills them in as `Fifo.SourceOf` says (see "Left out").

## Model

| member | source | states |
|---|---|---|
| Decimals.RoundWhole | src/currency/mod.rs:41-47 | a rounded amount is a whole number within half a unit of the amount and keeps its sign |
| Decimals.RoundSign | src/currency/mod.rs:41-47 | rounding to any number of places never turns a positive amount negative or a negative one positive |
| Decimals.RoundMonotone | src/currency/mod.rs:41-47 | rounding keeps the order of two amounts |
| Decimals.RoundHasPlaces | src/currency/mod.rs:41-47 | the result has at most the requested number of decimal places |
| Decimals.RoundExact | src/currency/mod.rs:41-47 | an amount that already has the requested places is returned unchanged |
| Decimals.RoundZero | src/currency/mod.rs:41-47 | zero rounds to zero |
| Decimals.RoundError | src/currency/mod.rs:41-47 | the result is at most half a unit of the last place away from the amount |
| Decimals.RoundIdempotent | src/currency/mod.rs:41-47 | rounding a second time to the same places changes nothing |
| Decimals.RoundNegate | src/currency/mod.rs:41-47 | rounding is symmetric around zero (half away from zero) |
| Decimals.RoundingTestValues | src/currency/mod.rs:54-78 | 1.005, 1.115 and 1.125 round up to 1.01, 1.12 and 1.13 and 1.004 rounds down to 1, as the rounding tests expect |
| Converter.ConvertTo | src/currency/converter.rs:24-27 | the converted amount is in the target currency, a conversion to the same currency is the identity and zero stays zero |
| Converter.ConvertToRounding | src/broker_statement/trades.rs:126-129 | the amount converted and rounded to cents is in the target currency, and zero stays zero |
| Currency.SignTrichotomy | src/currency/cash.rs:36-46 | every amount is exactly one of zero, positive and negative: positive and negative both exclude zero |
| Currency.Neg | src/currency/cash.rs:110-117 | the negation keeps the currency and cancels the amount |
| Currency.EnsureSameCurrency | src/currency/cash.rs:101-107 | succeeds exactly when both currencies are the same |
| Currency.Add | src/currency/cash.rs:49-52 | the sum in the operands' currency, and an error exactly when the currencies differ |
| Currency.Sub | src/currency/cash.rs:60-62 | subtraction is the addition of the negation: the difference, or an error exactly on a currency mismatch |
| Currency.AddAssign | src/currency/cash.rs:54-58 | the updated amount equals `add`, and a mismatch leaves the amount unchanged |
| Currency.SubAssign | src/currency/cash.rs:64-66 | the updated amount equals `sub`, and a mismatch leaves the amount unchanged |
| Currency.Div | src/currency/cash.rs:69-72 | the ratio of the amounts, and an error exactly when the currencies differ |
| Currency.NormalizeCurrency | src/currency/cash.rs:89-94 | GBX becomes GBP at one hundredth of the amount; every other currency is kept |
| Currency.Round | src/currency/cash.rs:74-77 | rounding to cents keeps the currency and the sign of the amount |
| Currency.Compare | src/currency/cash.rs:179-184 | with equal currencies (the source panics otherwise), less and equal exactly as the amounts compare |
| Currency.CompareAntisymmetric | src/currency/cash.rs:179-184 | swapping the operands swaps the ordering, and equal means the same amount |
| Currency.AddSubRoundTrip | src/currency/cash.rs:49-62 | subtracting an added amount gives back the original |
| MultiCurrency.Deposited | src/currency/multi.rs:41-48 | the deposited currency gets the amount added to its balance or inserted, and every other currency is unchanged |
| MultiCurrency.Merged | src/currency/multi.rs:54-58 | the merged account holds every currency of either account at the sum of the two balances |
| MultiCurrency.WithdrawRestores | src/currency/multi.rs:50-52 | a withdrawal is a deposit of the negation, so depositing and withdrawing the same amount restores every balance |
| MultiCurrency.MergedCommutes | src/currency/multi.rs:54-58 | merging does not depend on which account is merged into which, so the currency iteration order is irrelevant |
| MultiCurrency.MergedStep | src/currency/multi.rs:54-58 | depositing one more currency of the other account extends the merge by exactly that currency |
| MultiCurrency.TotalRemove | src/currency/multi.rs:60-74 | the total value does not depend on the order the balances are converted and summed |
| MultiCurrency.TotalDeposit | src/currency/multi.rs:41-48 | depositing an amount in the target currency raises the total value by exactly that amount |
| MultiCurrency.TotalSingle | src/currency/multi.rs:89-95 | an account created from one amount is worth that amount in its own currency |
| MultiCurrency.MultiCurrencyCashAccount.constructor | src/currency/multi.rs:15-17 | a new account is empty |
| MultiCurrency.MultiCurrencyCashAccount.FromCash | src/currency/multi.rs:89-95 | an account created from one amount holds only that balance |
| MultiCurrency.MultiCurrencyCashAccount.IsEmpty | src/currency/multi.rs:19-21 | true exactly when no currency is held |
| MultiCurrency.MultiCurrencyCashAccount.Get | src/currency/multi.rs:23-29 | the stored balance exactly when the currency is held (`has_assets`) |
| MultiCurrency.MultiCurrencyCashAccount.Clear | src/currency/multi.rs:37-39 | afterwards no currency is held |
| MultiCurrency.MultiCurrencyCashAccount.Deposit | src/currency/multi.rs:41-48 | the new balances are `Deposited` of the old ones |
| MultiCurrency.MultiCurrencyCashAccount.Withdraw | src/currency/multi.rs:50-52 | the new balances are the deposit of the negated amount |
| MultiCurrency.MultiCurrencyCashAccount.Add | src/currency/multi.rs:54-58 | depositing the other account's balances one at a time, in any order, gives `Merged` of the two |
| MultiCurrency.MultiCurrencyCashAccount.TotalAssets | src/currency/multi.rs:60-74 | the loop's sum is the order-independent total of every converted balance |
| Localities.Percents | src/localities/mod.rs:26-30 | every rate of a table is stored as its percentage divided by 100, for the same years |
| Localities.NewCountry | src/localities/mod.rs:20-33 | the country keeps its currency and precision, and its default rate and every year's rate are the configured percentages divided by 100 |
| Localities.LastAtMost | src/localities/mod.rs:77-81 | none exactly when every year of the table is after the requested one, otherwise a rate of a year not after it |
| Localities.TaxRate | src/localities/mod.rs:76-83 | an income type without a table gets the default rate |
| Localities.TaxRateIsLatest | src/localities/mod.rs:76-83 | the rate picked is that of the latest year not after the requested year |
| Localities.LastAtMostIsLatest | src/localities/mod.rs:77-81 | the range lookup returns the entry of the greatest year not after the requested one |
| Localities.TaxRateBeforeFirstYear | src/localities/mod.rs:76-83 | a year before every entry of the income type's table falls back to the default rate |
| Localities.CountryRoundTax | src/localities/mod.rs:39-42 | the tax is rounded to kopecks first and then to the country's precision, in the country's currency |
| Localities.GrossTax | src/localities/mod.rs:47-54 | the tax is zero unless the income rounded to cents is positive |
| Localities.TaxToPay | src/localities/mod.rs:44-69 | zero for a non-positive rounded income; without paid tax the gross tax; with paid tax (non-negative, in the same currency) the gross tax less the rounded paid tax, or zero when the credit is not smaller |
| Localities.TaxToPayBounds | src/localities/mod.rs:56-68 | with a non-negative rate the tax to pay lies between zero and the tax without the credit |
| Localities.TaxToPayMonotone | src/localities/mod.rs:44-69 | with a non-negative rate a larger income never gets a smaller tax |
| Localities.DeduceIncome | src/localities/mod.rs:71-74 | the deduced income is in the country's currency |
| Localities.DeduceIncomeIsGross | src/localities/mod.rs:71-74 | the deduced income is within half a cent of the gross income whose untaxed share is the result income |
| Localities.RussiaCountry | src/localities/mod.rs:114-123 | Russia pays in roubles to whole roubles, 13% by default, with tables for trading, dividends and interest |
| Localities.UsCountry | src/localities/mod.rs:125-129 | the USA pays in dollars to cents, 10% on dividends from year 0 on and nothing on trading or interest |
| Localities.NewYearWindow | src/localities/mod.rs:138-142 | over New Year the earliest working day is ten days back but not before 30 December, so two to ten days back |
| Localities.MinLastWorkingDayBounds | src/localities/mod.rs:136-155 | the earliest last working day is always two to ten days back, and exactly three days back outside the holiday windows |
| Localities.MinLastWorkingDay | src/localities/mod.rs:136-155 | outside the holiday windows the earliest last working day is three days back, and in the spring 2020 lockdown it is 28 March 2020 |
| Localities.IsValidExecutionDate | src/localities/mod.rs:131-134 | a valid execution is not before the conclusion and the last working day before it is within the two-day settlement |
| Localities.RegularSettlementIsValid | src/localities/mod.rs:131-134 | outside holiday windows an execution two days after the conclusion is valid |
| Localities.NearestPossibleAccountCloseDate | src/localities/mod.rs:157-166 | the loop ends on the first day, at most ten days after the execution date, whose earliest last working day is not before the execution date |
| TaxRates.Tax | src/taxes/rates.rs:22-30 | zero for an income that rounds to zero or less, and never negative with a non-negative rate |
| TaxRates.FixedTaxRateTestValues | src/taxes/rates.rs:68-79 | 13% of 100, 103.80, 103.81 and 103.85 gives 13, 13, 14 and 14 roubles, and of 696.12 gives 91 |
| Taxes.ValidateTaxExemptions | src/taxes/mod.rs:58-72 | accepted exactly when there is no exemption, or one under the Russian jurisdiction; more than one gives its own error |
| Taxes.TaxOnIncome | src/taxes/rates.rs:23-29 | the tax is zero unless the income rounded to cents is positive |
| Taxes.TaxOnIncomeMonotone | src/taxes/rates.rs:23-29 | with a non-negative rate the tax is never negative and does not shrink as the income grows |
| Taxes.RoundTaxMonotone | src/taxes/mod.rs:87-89 | double rounding keeps the order of two amounts |
| Taxes.RoundTax | src/taxes/mod.rs:87-89 | the tax, rounded to kopecks and then to `precision`, has at most `precision` decimal places |
| Taxes.RoundTaxSign | src/taxes/mod.rs:87-89 | double rounding keeps the sign of the tax |
| Taxes.RoundTaxTestValues | src/taxes/mod.rs:96-108 | 13, 13.1111 and 13.4949 round to 13 roubles and 13.4950 and 13.9999 to 14, as the unit tests expect |
| Taxes.DoubleRoundingDiffers | src/taxes/mod.rs:74-89 | rounding to kopecks first makes 13.495 give 14 roubles where a single rounding gives 13 |
| LongTermOwnership.Anniversary | src/taxes/long_term_ownership.rs:14-19 | the n-th anniversary has the year n later and the same month, clamped to a month that is too short |
| LongTermOwnership.OwnershipYears | src/taxes/long_term_ownership.rs:8-23 | for a buy not after the sell, the count is between zero and the difference of the years; `OwnershipYearsCountsAnniversaries` says which anniversaries it counts |
| LongTermOwnership.OwnershipYearsCountsAnniversaries | src/taxes/long_term_ownership.rs:8-23 | for buy ≤ sell the count is non-negative, its anniversary is reached by the sell date and the next one is not |
| LongTermOwnership.AnniversariesIncrease | src/taxes/long_term_ownership.rs:14-19 | later anniversaries fall on later dates |
| LongTermOwnership.OwnershipYearsUnique | src/taxes/long_term_ownership.rs:8-23 | any n whose anniversary is reached but whose next one is not is the count |
| LongTermOwnership.OwnershipYearsTestValues | src/taxes/long_term_ownership.rs:30-49 | every case of the unit tests (long_term_ownership.rs:30-45), including the purchases on 29 February |
| PaymentDays.ValidDaySpecEveryYear | src/taxes/payment_day.rs:96-98 | a day spec that passes validation names a real date in every year |
| PaymentDays.GetFor | src/taxes/payment_day.rs:39-61 | a day spec pays on that day of the next year, except Russian trading tax on 1 January; on close, trading pays on the close date and other income on the default 15 March of the next year; requires tax year ≤ close year as the source asserts |
| PaymentDays.Get | src/taxes/payment_day.rs:23-37 | the tax year is the income year, or the close year for trading on close (requiring income ≤ close date), and the payment day is `GetFor` of that year |
| PaymentDays.PaymentNotBeforeIncome | src/taxes/payment_day.rs:23-61 | the tax is never due before its income, and strictly after it with a day spec |
| PaymentDays.ParseU32 | src/taxes/payment_day.rs:89-90 | a digit string parses exactly when its value is below 2^32, to that value |
| PaymentDays.ParseSpec | src/taxes/payment_day.rs:80-102 | "on-close" gives the close date; any accepted spec is a valid day or a close date |
| PaymentDays.ParseSpecIndependentOfYear | src/taxes/payment_day.rs:96-98 | because 29 February is refused, the answer does not depend on the current year |
| PaymentDays.ParseFormatRoundTrip | src/taxes/payment_day.rs:88-100 | every valid day spec parses back from its `<day>.<month>` form |
| PaymentDays.ParseRejectsLeapDay | src/taxes/payment_day.rs:96-98 | "29.2" is refused even in a leap year |
| PaymentDays.ParseRejectsMissingDay | src/taxes/payment_day.rs:96-98 | "31.4" is refused |
| PaymentDays.ParseAcceptsDay | src/taxes/payment_day.rs:88-100 | "15.03" is 15 March, a leading zero being accepted |
| PaymentDays.ParseRejectsNoMonth | src/taxes/payment_day.rs:88 | "15." does not match the pattern and is refused |
| NetCalculator.AddedProfit | src/taxes/net_calculator.rs:44-51 | the key's accumulator gets both amounts rounded to cents added, starting from zero, and every other key is unchanged |
| NetCalculator.NetTaxOf | src/taxes/net_calculator.rs:62-76 | the tax to pay is the trading tax on the taxable profit, and the deduction is the tax on the whole profit less it |
| NetCalculator.NetTaxDeduction | src/taxes/net_calculator.rs:73-74 | with a non-negative rate and taxable ≤ total the deduction is never negative, and zero when nothing is exempt |
| NetCalculator.NetTaxCalculator.constructor | src/taxes/net_calculator.rs:30-36 | a new calculator has no accumulated profit |
| NetCalculator.NetTaxCalculator.AddProfit | src/taxes/net_calculator.rs:38-56 | the profit goes to the accumulator keyed by the tax year and payment date of `get(date, true)`, and the invariant is kept |
| NetCalculator.NetTaxCalculator.Calculate | src/taxes/net_calculator.rs:58-81 | one net tax per tax year, each the net tax of its accumulator, with a non-negative deduction, and no year inserted twice |
| NetCalculator.NetTaxCalculator.YearHasOneKey | src/taxes/net_calculator.rs:77 | two accumulators of the same tax year are the same one, so the insertion assert holds |
| BrokerStatements.InsertByKey | src/broker_statement/mod.rs:434 | inserting a trade adds exactly that trade to the multiset |
| BrokerStatements.SortByKey | src/broker_statement/mod.rs:434 | the sort result is a permutation of its input |
| BrokerStatements.InsertKeepsSorted | src/broker_statement/mod.rs:434 | inserting into a list sorted by (conclusion, execution) keeps it sorted |
| BrokerStatements.SortByKeySorts | src/broker_statement/mod.rs:434 | the sorted trades are in (conclusion, execution) order and are a permutation of the trades |
| BrokerStatements.CheckExecutionOrder | src/broker_statement/mod.rs:436-448 | succeeds exactly when no execution date is earlier than the previous one, else the source's error |
| BrokerStatements.ValidateDates | src/broker_statement/mod.rs:472-484 | an empty list passes; otherwise succeeds exactly when the first date is not before the start and the last not after the last date |
| BrokerStatements.WithinPeriod | src/broker_statement/mod.rs:486-526 | on a chronological list, checking the two ends puts every date inside the period |
| BrokerStatements.EmulatedExecutionDate | src/broker_statement/mod.rs:237-242 | the execution date is today's or the last sell's, whichever is later |
| BrokerStatements.PositionsAfterSale | src/broker_statement/mod.rs:251-263 | an exact quantity removes the position, a smaller one decrements it, a larger one or a missing position is an error, and other positions are unchanged |
| BrokerStatements.SaleConservesShares | src/broker_statement/mod.rs:251-263 | the shares held after a sale plus the shares sold are the shares held before, for every symbol |
| BrokerStatements.MergeCheck | src/broker_statement/mod.rs:386-400 | a sparse broker refuses a part starting before the end, any other broker a part not starting exactly at the end; a missing period is an error |
| BrokerStatements.ContinuousMergeHasNoGap | src/broker_statement/mod.rs:394-400 | for a non-sparse broker an accepted part starts exactly at the current end |
| BrokerStatements.SparseMergeHasNoOverlap | src/broker_statement/mod.rs:388-393 | for a sparse broker an accepted part never starts before the current end |
| BrokerStatements.BrokerStatement.constructor | src/broker_statement/mod.rs:161-181 | the statement `new_empty_from` builds is empty and its period starts and ends on the given date |
| BrokerStatements.NewEmptyFrom | src/broker_statement/mod.rs:154-181 | a part without a period gives the period error, one without the starting-assets flag that flag's error, one with starting assets the "non-zero starting assets" error; otherwise a fresh empty statement whose period starts and ends at the part's start |
| BrokerStatements.BrokerStatement.LastDate | src/broker_statement/mod.rs:183-185 | the last date is the day before the period end |
| BrokerStatements.BrokerStatement.Merge | src/broker_statement/mod.rs:385-420 | succeeds exactly when `MergeCheck` does; an error changes nothing; success extends the period end, replaces the cash assets and open positions, records the part's cash assets under the new last date and appends every record list |
| BrokerStatements.BrokerStatement.ExtendRecords | src/broker_statement/mod.rs:407-414 | every record list of the part goes after this statement's, and the ledgers stay valid |
| BrokerStatements.BrokerStatement.SortStockBuys | src/broker_statement/mod.rs:433-449 | the buys become their stable sort by (conclusion, execution), and the result is Ok exactly when their execution dates do not decrease |
| BrokerStatements.BrokerStatement.SortStockSells | src/broker_statement/mod.rs:451-467 | the same for the sells |
| BrokerStatements.BrokerStatement.Validate | src/broker_statement/mod.rs:469-529 | succeeds exactly when every list of records passes `ValidateDates` against the period start and the last date |
| BrokerStatements.BrokerStatement.ProcessTrades | src/broker_statement/mod.rs:283-343 | the buys and sells become the FIFO processing of the old ones (unchanged on an error), and success means the unsold shares of every symbol equal its declared open position |
| BrokerStatements.BrokerStatement.EmulateSell | src/broker_statement/mod.rs:232-270 | the commission calculator records the sale's volume on the conclusion date first, whether or not the sale then succeeds; the sale succeeds exactly when the position allows it, and an error leaves the statement unchanged; success applies `PositionsAfterSale`, appends the sell with the calculator's rounded commission and deposits its volume less that commission |
| BrokerStatements.AndThen | src/broker_statement/mod.rs:489-527 | the `?` chain: the first error, or success when both checks pass |
| BrokerStatements.HistoryBeforeNextEnd | src/broker_statement/mod.rs:402-405 | the new last date is not yet a history date, so the insertion assert holds, and every history date stays before the new end |
| Fifo.OldestOpenFrom | src/broker_statement/mod.rs:284-313 | a buy found is at index `k` or later |
| Fifo.OldestOpenFacts | src/broker_statement/mod.rs:284-313 | the buy found is open for the symbol with no open buy of it between `k` and it, or there is no open buy at all |
| Fifo.ProRateAdditive | src/broker_statement/mod.rs:325 | prorated commissions of two lots add up to the commission of their joint quantity, and the whole quantity carries the whole commission |
| Fifo.SourceOf | src/broker_statement/mod.rs:322-329 | a lot takes the quantity at the buy's price and dates, with the buy commission prorated by the quantity; the volume and multiplier `mod.rs` does not set are the prorated buy volume and 1 |
| Fifo.UnsoldOfSell | src/broker_statement/trades.rs:62-65 | selling `q` shares of one buy takes `q` off the symbol's unsold total and leaves other symbols' totals unchanged |
| Fifo.Match | src/broker_statement/mod.rs:312-337 | the matching of one sell keeps the ledger valid and the same length |
| Fifo.MatchUnfold | src/broker_statement/mod.rs:313-331 | one step takes min(remaining, unsold) from the oldest open buy, which is positive |
| Fifo.MatchEnds | src/broker_statement/mod.rs:312-316 | matching stops once nothing remains and fails when no open buy of the symbol is left |
| Fifo.MatchAdvances | src/broker_statement/mod.rs:317-332 | a matching only grows the sold counters of the symbol's buys |
| Fifo.MatchLotsAddUp | src/broker_statement/trades.rs:100-109 | the lots of a successful matching add up to the sell quantity |
| Fifo.MatchTakesUnsold | src/broker_statement/mod.rs:319-332 | a matching takes exactly the sell quantity off the symbol's unsold shares |
| Fifo.MatchLotsPositive | src/broker_statement/mod.rs:319-320 | every lot takes a positive quantity |
| Fifo.MatchIsFifo | src/broker_statement/mod.rs:284-314 | whenever a buy of the symbol gained sales, every older buy of it is fully sold |
| Fifo.ProcessFrom | src/broker_statement/mod.rs:299-340 | processing keeps the ledger valid and the same lengths, and changes nothing in each sell but its lots |
| Fifo.BuildStacks | src/broker_statement/mod.rs:284-297 | each symbol with an open buy gets a stack listing exactly its open buys, newest first |
| Fifo.StackTop | src/broker_statement/mod.rs:313 | the last entry of a symbol's stack is its oldest open buy |
| Fifo.MatchSell | src/broker_statement/mod.rs:304-337 | the inner loop's result is `Match`, and the stack left lists exactly the open buys of the symbol afterwards |
| Fifo.ProcessSells | src/broker_statement/mod.rs:284-340 | both loops together give `ProcessFrom`, with a sell whose symbol had no open buy an error |
| Fifo.UnsoldPositionsAreTotals | src/broker_statement/mod.rs:531-546 | the positions computed are exactly the symbols with an open buy, each with its total unsold shares |
| Fifo.ValidateOpenPositions | src/broker_statement/mod.rs:531-553 | succeeds exactly when the computed positions equal the declared ones |
| Trades.NewStockBuy | src/broker_statement/trades.rs:43-52 | a new buy has nothing sold, so its unsold part is its quantity |
| Trades.IsSold | src/broker_statement/trades.rs:54-56 | a buy is sold exactly when nothing of it is unsold |
| Trades.GetUnsold | src/broker_statement/trades.rs:58-60 | the unsold part and the sold part add up to the quantity, and the unsold part lies between zero and the quantity while the sold counter is in range |
| Trades.Sell | src/broker_statement/trades.rs:62-65 | requires quantity ≤ unsold as the source asserts; the unsold part shrinks by the quantity and nothing else changes |
| Trades.SellKeepsRange | src/broker_statement/trades.rs:54-65 | selling a non-negative part keeps `sold` within the quantity, and the buy is sold exactly when all the rest was sold |
| Trades.Process | src/broker_statement/trades.rs:100-109 | requires an unprocessed sell whose lots' multiplier × quantity add up to it, as asserted; records exactly those lots and changes nothing else |
| Trades.NewFifoDetails | src/broker_statement/trades.rs:326-352 | the lot's total local cost is its local cost plus its local commission, in the local currency, with no exemption yet |
| Trades.TotalCost | src/broker_statement/trades.rs:354-358 | the lot's cost and commission are expressed in the requested currency |
| Trades.ExemptionFlags | src/broker_statement/trades.rs:143-151 | forced exactly when some exemption forces it; otherwise exemptible exactly when some exemption allows it |
| Trades.LotDetails | src/broker_statement/trades.rs:139-163 | a forced exemption always marks the lot; otherwise the lot is exempt exactly when an exemption allows it and its local profit is positive; the quantity is multiplier × quantity |
| Trades.SumsStep | src/broker_statement/trades.rs:165-176 | appending a lot adds its quantity, its tax-free quantity when exempt, its costs and its deductible cost when not exempt |
| Trades.NoneExemptSums | src/broker_statement/trades.rs:165-176 | without an exempt lot nothing is tax free and every lot's cost is deductible |
| Trades.AllExemptSums | src/broker_statement/trades.rs:165-176 | with every lot exempt every share is tax free and no cost is deductible |
| Trades.LotQuantities | src/broker_statement/trades.rs:181 | lots that keep their sources' shares add up to the sources' quantity, so the assert holds |
| Trades.Lots | src/broker_statement/trades.rs:139-179 | one lot detail per source, in order |
| Trades.SellDetailsOfResult | src/broker_statement/trades.rs:182-250 | the sell's figures are an error exactly when the tax of the taxable profit exceeds the tax of the whole profit; they carry that tax, the difference as deduction, and the lots |
| Trades.AddLot | src/broker_statement/trades.rs:165-178 | one loop turn adds the lot's share to each running sum |
| Trades.AccumulateLots | src/broker_statement/trades.rs:131-179 | the loop computes exactly the lot details and their totals |
| Trades.CalculateImpl | src/broker_statement/trades.rs:120-251 | the result is the sell details of the lots, given that the lots add up to the sell as `process` asserts; the negative-deduction assertion is an error value |
| Trades.MixedExemptionDeduction | src/broker_statement/trades.rs:198-206 | for any lots, with a non-negative rate the deduction is not negative whenever the taxable profit does not exceed the local profit or rounds to nothing |
| Trades.NoExemptionNoDeduction | src/broker_statement/trades.rs:294-303 | with no exempt lot the taxable profit equals the local profit and the deduction is zero |
| Trades.FullExemptionDeduction | src/broker_statement/trades.rs:201-206 | with every lot exempt and a non-negative rate nothing is taxed and the deduction is never negative |
| Trades.ForcedExemptionExemptsAll | src/broker_statement/trades.rs:147-150 | a forced exemption exempts every lot |
| Trades.TaxExemptionApplied | src/broker_statement/trades.rs:294-302 | true exactly when some lot is exempt; its requires are the two facts the source asserts otherwise |
| PartialStatements.GetOption | src/broker_statement/partial.rs:143-148 | the stored value exactly when there is one, otherwise the "is missing" error naming the field |
| PartialStatements.SetOption | src/broker_statement/partial.rs:150-156 | the field holds the value exactly when it was empty, otherwise the "Duplicate" error naming the field |
| PartialStatements.SetOnce | src/broker_statement/partial.rs:143-156 | a field set once reads back its value and cannot be set a second time |
| PartialStatements.PartialBrokerStatement.constructor | src/broker_statement/partial.rs:59-92 | nothing is set, no open positions, and the cash assets start at zero only when the broker reports none |
| PartialStatements.PartialBrokerStatement.SetPeriod | src/broker_statement/partial.rs:98-100 | succeeds exactly when no period was set, stores it then, and changes nothing else |
| PartialStatements.PartialBrokerStatement.GetPeriod | src/broker_statement/partial.rs:102-104 | the period exactly when it was set |
| PartialStatements.PartialBrokerStatement.SetHasStartingAssets | src/broker_statement/partial.rs:106-108 | succeeds exactly when the flag was not set, stores it then, and changes nothing else |
| PartialStatements.PartialBrokerStatement.GetHasStartingAssets | src/broker_statement/partial.rs:110-112 | the flag exactly when it was set |
| PartialStatements.PartialBrokerStatement.AddOpenPosition | src/broker_statement/partial.rs:114-124 | succeeds exactly for a strictly positive quantity of a symbol not declared yet, which is then inserted; an error leaves the positions unchanged |
| PartialStatements.PartialBrokerStatement.Validate | src/broker_statement/partial.rs:136-140 | succeeds exactly when both the period and the starting-assets flag are set, reporting the period first |
| StatementsMerging.Validate | src/broker_statement/merging.rs:15-65 | succeeds exactly when the periods do not overlap and any gap is tolerated by the strategy (none for ContinuousOnly; a one-day statement in the last month; at most `max_days` missing weekdays); the error says overlapping or non-continuous |
| StatementsMerging.WeekdaysAtMostDays | src/broker_statement/merging.rs:49-60 | a gap never holds more missing weekdays than days |
| StatementsMerging.ShortGapAccepted | src/broker_statement/merging.rs:48-61 | with holidays tolerated, a gap of at most `max_days` days is always accepted |
| StatementsMerging.ContinuousIsStrictest | src/broker_statement/merging.rs:22-61 | contiguous periods are accepted by every strategy |
| StatementsMerging.LastFebruaryWeekend | src/broker_statement/merging.rs:53 | 27 and 28 February 2021 are the weekend and 26 February is a Friday |
| StatementsMerging.WeekendGapIsFree | src/broker_statement/merging.rs:48-61 | a gap over a weekend is refused by ContinuousOnly but accepted with no missing weekday allowed |
| StatementsMerging.FridayGapIsMissing | src/broker_statement/merging.rs:53-56 | a gap on a Friday counts as a missing weekday |
| StatementsMerging.SingleDayInLastMonth | src/broker_statement/merging.rs:33-46 | a one-day statement in the last month may follow a gap; one in another month, or longer than a day, may not |
| Validators.ValidateAsWritten | src/broker_statement/validators.rs:26-41 | as written: accepts a list exactly when its FIRST date lies in the period, since both ends are read from the first element |
| Validators.Validate | src/broker_statement/validators.rs:26-41 | corrected: accepts exactly when the first date is not before the start and the last date is not after the end; otherwise the "outside of statement period" error |
| Validators.BetweenEnds | src/broker_statement/validators.rs:26-41 | in a sorted list whose two ends lie in the period, every date does |
| Validators.ValidatedWithinPeriod | src/broker_statement/validators.rs:17-41 | a sorted list is accepted exactly when every one of its dates lies in the period |
| Validators.AsWrittenIsWeaker | src/broker_statement/validators.rs:28 | whatever the corrected check accepts the one as written accepts too |
| Validators.AsWrittenMissesLateDate | src/broker_statement/validators.rs:28 | a sorted list whose last date is after the period passes the check as written and fails the corrected one |
| Validators.KeysOf | src/broker_statement/validators.rs:17-20 | the key of every object (its date, or a trade's information), one per object in order |
| Validators.SortedDatesInOrder | src/broker_statement/validators.rs:19 | objects sorted by their date key have their dates in calendar order |
| Validators.SortAndValidate | src/broker_statement/validators.rs:17-24 | the array ends sorted by date; an empty one is accepted and a non-empty one gets the result of `validate` as written on the sorted dates |
| Validators.SortedFirstIsEarliest | src/broker_statement/validators.rs:19 | after the sort, the first object has the earliest date of the list |
| Validators.SortedListWithinPeriod | src/broker_statement/validators.rs:17-41 | as written, after sorting a non-empty list is accepted exactly when its earliest date lies in the period, whatever its later dates |
| Validators.SortedListWithinPeriodCorrected | src/broker_statement/validators.rs:17-41 | with the corrected `validate`, a sorted non-empty list is accepted exactly when every one of its dates lies in the period |
| Validators.CheckExecutionOrder | src/broker_statement/validators.rs:83-100 | accepts exactly when no non-margin trade executes before the trade preceding it; the error names the first such pair |
| Validators.ValidateTrades | src/broker_statement/validators.rs:77-101 | sorts the trades by conclusion then execution date and accepts exactly when their executions are in order; the error names the first out-of-order pair |
| Validators.DisorderNeedsLaterConclusion | src/broker_statement/validators.rs:78-94 | after the sort, a trade executes before its predecessor only when it was concluded on a later day |
| Validators.SameDayTradesAccepted | src/broker_statement/validators.rs:78-94 | sorted trades all concluded on one day are always accepted |
| Commissions.RoundWith | src/commissions/mod.rs:27-29 | rounds to cents: half away from zero, up to the next cent (less than a cent above), or toward zero (less than a cent away) |
| Commissions.RoundCash | src/commissions/mod.rs:31-34 | the amount rounded, in the same currency |
| Commissions.TierIndex | src/commissions/mod.rs:120 | the last tier whose threshold is not above the key: every later tier starts above it |
| Commissions.TierIndexBracketsKey | src/commissions/mod.rs:120 | with ascending thresholds, the key lies between the tier found and the next one |
| Commissions.TransactionCommission | src/commissions/mod.rs:53-81 | in the volume's currency; never below the converted minimum; capped at the maximum percentage of the volume whenever the cap is above the minimum; equal to the per-share plus percentage part when neither bound applies |
| Commissions.OtherFeesIgnored | src/commissions/mod.rs:164-169 | transaction fees of the other trade type add nothing |
| Commissions.TradeCommission | src/commissions/mod.rs:162-171 | the transaction commission plus the fees of the trade's own type, in the volume's currency |
| Commissions.WholeShares | src/commissions/mod.rs:156-157 | the number of shares ceiled, exactly when that fits `u32`; it is the least whole number not below the shares |
| Commissions.MonthlyCommissionDate | src/commissions/mod.rs:266-272 | the day after the last day of the month |
| Commissions.MonthlyDateInverse | src/commissions/mod.rs:266-272 | the charge date is a first of a month, it maps back to its month, and it is the only first of a month that does |
| Commissions.TierKey | src/commissions/mod.rs:111-121 | the key is the day's volume, or the portfolio net value clamped to be non-negative |
| Commissions.Shares | src/commissions/mod.rs:234-239 | holds exactly the currencies traded whose rounded percentage is positive, each with that rounded percentage |
| Commissions.DailyMinimumTopsUp | src/commissions/mod.rs:242-250 | the daily minimum adds exactly the shortfall of the rounded total, in the commission currency, and only when there is a shortfall |
| Commissions.DailyFeesPositive | src/commissions/mod.rs:252-260 | fees fall only on currencies that were traded, and are all positive |
| Commissions.NonEmptyDays | src/commissions/mod.rs:185-187 | a trade date gets an entry exactly when its day total holds something |
| Commissions.DayEntries | src/commissions/mod.rs:178-191 | each date's total is its commissions plus its fees, and its monthly contribution is its rounded commission |
| Commissions.MonthlyStep | src/commissions/mod.rs:189-191 | adding a day's commission changes the sum of its own month only |
| Commissions.TopUpsEffect | src/commissions/mod.rs:194-220 | each charged month adds its amount in the commission currency to exactly its charge date |
| Commissions.TopUpsElsewhereUnchanged | src/commissions/mod.rs:194-220 | a date that is no month's charge date keeps its balances |
| Commissions.Shortfalls | src/commissions/mod.rs:195-202 | the months below the monthly minimum, each with its positive shortfall |
| Commissions.FixedCharges | src/commissions/mod.rs:213-219 | the same depositary fee for every traded month |
| Commissions.NetValueKey | src/commissions/mod.rs:206-210 | the portfolio net value converted to the commission currency and clamped to be non-negative |
| Commissions.NoCumulativeRulesNoCharges | src/commissions/mod.rs:174-223 | with no cumulative rule, nothing is charged whatever was traded |
| Commissions.CommissionCalc.constructor | src/commissions/mod.rs:137-142 | the spec, the rates and the net value are stored and no volume is recorded |
| Commissions.CommissionCalc.AddTradePrecise | src/commissions/mod.rs:149-172 | fails for a share count that does not fit `u32` and then records nothing; otherwise adds the volume to its date and returns the trade commission, which depends on the arguments alone |
| Commissions.CommissionCalc.AddTrade | src/commissions/mod.rs:144-147 | the same as the precise commission, rounded |
| Commissions.CommissionCalc.DepositShares | src/commissions/mod.rs:234-239 | deposits each traded currency's positive rounded percentage |
| Commissions.CommissionCalc.TieredDaily | src/commissions/mod.rs:230-240 | the day's tiered commissions, the tier found by the day's total volume |
| Commissions.CommissionCalc.FeesDaily | src/commissions/mod.rs:252-260 | the day's percentage fees |
| Commissions.CommissionCalc.CalculateDaily | src/commissions/mod.rs:225-263 | the day's commissions, topped up to the daily minimum, and its fees |
| Commissions.CommissionCalc.DaySums | src/commissions/mod.rs:179-191 | a day's combined account and its rounded commission |
| Commissions.CommissionCalc.AccumulateDays | src/commissions/mod.rs:178-192 | the non-empty total of every date and the rounded commission of every month |
| Commissions.CommissionCalc.AccumulateDay | src/commissions/mod.rs:178-192 | one more date's total and monthly contribution, all other entries unchanged |
| Commissions.CommissionCalc.ChargeMonthlyMinimum | src/commissions/mod.rs:194-203 | each month below the minimum is charged its shortfall on its charge date, and no other date changes |
| Commissions.CommissionCalc.ChargeDepositary | src/commissions/mod.rs:205-220 | every traded month is charged the fee once on its charge date |
| Commissions.CommissionCalc.Calculate | src/commissions/mod.rs:174-223 | the day totals, then the monthly-minimum shortfalls, then the depositary fee, as the specification function composes them |
| CommissionBuilders.NewCommissionSpec | src/commissions/builders.rs:15-22 | a spec in the given currency, rounding half away from zero, with no per-trade and no cumulative rules |
| CommissionBuilders.WithRoundingMethod | src/commissions/builders.rs:24-27 | only the rounding method changes |
| CommissionBuilders.WithTrade | src/commissions/builders.rs:29-32 | only the per-trade rules change |
| CommissionBuilders.WithCumulative | src/commissions/builders.rs:34-37 | only the cumulative rules change |
| CommissionBuilders.WithCommission | src/commissions/builders.rs:52-55 | the commission rule is replaced and the fees are kept |
| CommissionBuilders.WithTransactionFee | src/commissions/builders.rs:57-60 | the fee is appended after the existing ones, which keep their order |
| CommissionBuilders.WithMinimum | src/commissions/builders.rs:75-78 | sets the minimum and nothing else |
| CommissionBuilders.WithPerShare | src/commissions/builders.rs:80-83 | sets the per-share rate and nothing else |
| CommissionBuilders.WithPercent | src/commissions/builders.rs:85-88 | sets the percentage and nothing else |
| CommissionBuilders.WithMaximumPercent | src/commissions/builders.rs:90-93 | sets the maximum percentage and nothing else |
| CommissionBuilders.BuildTransaction | src/commissions/builders.rs:95-102 | accepts the rule unchanged exactly when one of the per-share rate and the percentage is set, otherwise "Invalid commission specification" |
| CommissionBuilders.BuildTransactionRejects | src/commissions/builders.rs:95-102 | an empty rule and a rule with both rates are refused; a rule with either one alone is accepted |
| CommissionBuilders.Tiers | src/commissions/builders.rs:117-127 | accepts the tiers exactly when one starts at zero volume, storing them as volume tiers; the error says there is no zero tier |
| CommissionBuilders.AcceptedTiersCoverVolumes | src/commissions/builders.rs:117-127 | accepted ascending tiers start at or below every non-negative volume, so the tier lookup always finds one |
| CommissionBuilders.Percent | src/commissions/builders.rs:113-115 | the single tier {0: p}, which the tier check accepts |
| CommissionBuilders.PercentAppliesToEveryVolume | src/commissions/builders.rs:113-115 | a single-percent rule charges that percentage at every non-negative volume |
| CommissionBuilders.WithMinimumDaily | src/commissions/builders.rs:129-132 | sets the daily minimum and nothing else |
| CommissionBuilders.WithMinimumMonthly | src/commissions/builders.rs:134-137 | sets the monthly minimum and nothing else |
| CommissionBuilders.WithPercentFee | src/commissions/builders.rs:139-144 | appends the fee after the existing ones |
| CommissionBuilders.WithMonthlyDepositary | src/commissions/builders.rs:146-149 | a depositary fee equal at every net value, the rest unchanged |
| IbPlan.FixedRules | src/brokers/plans/ib.rs:12-33 | the plan is $0.005 a share, at least $1, at most 1% of the volume, plus on sells 0.0013% and $0.000119 a share |
| IbPlan.Commission | src/commissions/mod.rs:144-172 | defined exactly when the shares fit `u32` once ceiled |
| IbPlan.FixedCommission | src/brokers/plans/ib.rs:12-33 | a dollar trade costs half a cent a share capped at 1% of the volume, then raised to $1, plus both fees on a sell |
| IbPlan.FixedTestValues | src/brokers/plans/ib.rs:48-79 | the unit test's commissions for whole shares: 1, 1, 1.01, 1.5, 1.2, the precise 1.0619736 and the rounded 1.06 |
| IbPlan.FixedFractionTestValues | src/brokers/plans/ib.rs:40-79 | the same commissions with a tenth of a share less, since shares are ceiled |
| IbPlan.FixedChargesNothing | src/brokers/plans/ib.rs:81 | the plan has no cumulative rules, so `calculate` charges nothing |
| TieredCommissions.StateFor | src/commissions/tiered.rs:111-122 | the state of a day volume: that volume, and a tier that exists |
| TieredCommissions.InTierIsTierIndex | src/commissions/tiered.rs:71-91 | with ascending tiers each volume lies in exactly one tier, the one the tier lookup finds |
| TieredCommissions.EmptyDayState | src/commissions/tiered.rs:59-65 | a new day is tier 0, no volume and no commission |
| TieredCommissions.AddVolume | src/commissions/tiered.rs:118-122 | `add_volume` keeps the tier and grows the volume by the amount |
| TieredCommissions.AddVolumeKeepsCost | src/commissions/tiered.rs:118-122 | volume added at the current tier keeps the commission equal to the cost of the new volume |
| TieredCommissions.CostAtTierBoundary | src/commissions/tiered.rs:82-85 | at the next tier's start both tiers' cost formulas agree |
| TieredCommissions.LastTier | src/commissions/tiered.rs:71-79 | volume ending inside the current tier is charged there and the day stays in that tier |
| TieredCommissions.NextTier | src/commissions/tiered.rs:82-85 | filling the tier up to the next tier's start moves the day to the next tier on the cost curve |
| TieredCommissions.OnCurveIsStateFor | src/commissions/tiered.rs:88-91 | the states whose tier holds their volume and whose commission is its cost are exactly the states of their volume |
| TieredCommissions.TradeRecorded | src/commissions/tiered.rs:59-91 | the state the loop ends in is the state of the day's new volume, and every day stays valid |
| TieredCommissions.EmptyDayValid | src/commissions/tiered.rs:59-65 | the state a date starts from is valid |
| TieredCommissions.DaysValidUpdate | src/commissions/tiered.rs:59-91 | recording a valid day keeps all days valid |
| TieredCommissions.TradeVolume | src/commissions.rs:90-100 | the trade's amount exactly when it is in the commission currency |
| TieredCommissions.TieredCommissionCalc.constructor | src/commissions/tiered.rs:49-54 | the spec is stored and no day has traded |
| TieredCommissions.TieredCommissionCalc.AddTrade | src/commissions/tiered.rs:56-94 | succeeds exactly in the commission currency, returning zero; the day's state becomes the state of its new volume; a refused trade leaves only the day's possibly new empty entry |
| TieredCommissions.TieredCommissionCalc.AddAcrossTiers | src/commissions/tiered.rs:68-86 | the loop keeps the state on the cost curve and adds exactly the trade's volume |
| TieredCommissions.TieredCommissionCalc.Calculate | src/commissions/tiered.rs:96-108 | one entry per traded day in the spec's currency: the accrued commission, or the daily minimum when it is below it |
| TieredCommissions.BcsExample | src/commissions/tiered.rs:131-168 | the three trades of the unit test return zero and the day costs 96.8259025 |
| TieredCommissions.BcsTrades | src/commissions/tiered.rs:153-163 | the three trades leave the day in tier 1 with volume 165742.5 and commission 96.8259025 |
| TieredCommissions.BcsDay | src/commissions/tiered.rs:153-163 | the day's states after each trade, on the specification function |
| DepositEmulation.NextYearMonthFollowsMonthEnd | src/analysis/deposit_emulator.rs:229-238 | the month after a month's last day is the month `get_next_year_month` gives |
| DepositEmulation.NextCapitalizationDate | src/analysis/deposit_emulator.rs:240-260 | accepts exactly a current date that is the capitalization day or a month end before it; the result falls in the next month, on the capitalization day or that month's last day when it is shorter |
| DepositEmulation.NextCapitalizationWithinMonth | src/analysis/deposit_emulator.rs:255-256 | the next capitalization date is 28 to 31 days later |
| DepositEmulation.NextCapitalizationTestValues | src/analysis/deposit_emulator.rs:411-441 | the unit test's December, January and February cases, including the refused ones |
| DepositEmulation.Days | src/analysis/deposit_emulator.rs:197-200 | a positive number of days that leads from the period's start to its end |
| DepositEmulation.NewEmulator | src/analysis/deposit_emulator.rs:20-39 | starts on the start date with no assets and the daily rate interest/100/365, with one interest period over the term unless it is empty |
| DepositEmulation.Reversed | src/analysis/deposit_emulator.rs:46-49 | the custom periods in reverse order, the first on top |
| DepositEmulation.AscendingPeriodsStack | src/analysis/deposit_emulator.rs:46-49 | ascending custom periods, once stacked, are taken in their own order |
| DepositEmulation.SetNextCapitalizationDate | src/analysis/deposit_emulator.rs:213-227 | a later date no later than the period's end, only the capitalization date changing; between ends it is the capitalization day of the next month |
| DepositEmulation.AfterSelect | src/analysis/deposit_emulator.rs:64-89 | enters the top period when it starts today, with nothing accrued, and changes nothing else |
| DepositEmulation.AfterAccumulate | src/analysis/deposit_emulator.rs:135-149 | moves the date, the accrued income being the only other change |
| DepositEmulation.IncomeOnlyOnPositiveAssets | src/analysis/deposit_emulator.rs:142-146 | income accrues by assets times daily rate times days when the assets are not negative, and not at all otherwise |
| DepositEmulation.AfterCapitalize | src/analysis/deposit_emulator.rs:151-159 | the accrued income joins the assets, the accrual restarts at zero and the next capitalization date is later |
| DepositEmulation.AfterClose | src/analysis/deposit_emulator.rs:161-167 | the period's income joins the assets and the next period is selected |
| DepositEmulation.AfterStep | src/analysis/deposit_emulator.rs:99-130 | one loop step moves the date strictly forward, never past the target |
| DepositEmulation.AfterStepInside | src/analysis/deposit_emulator.rs:100-113 | inside a period: accrues up to the capitalization date and capitalizes or closes there, or accrues to the target |
| DepositEmulation.AfterStepOutside | src/analysis/deposit_emulator.rs:114-129 | outside a period: jumps to the target or to the next period's start and enters it |
| DepositEmulation.AfterProcessTo | src/analysis/deposit_emulator.rs:96-133 | ends on the target date with the settings unchanged |
| DepositEmulation.AfterTransaction | src/analysis/deposit_emulator.rs:91-94 | brings the deposit to the transaction's date and then adds its amount |
| DepositEmulation.ChronologicalPrefix | src/analysis/deposit_emulator.rs:54-56 | every prefix of transactions in date order is in date order |
| DepositEmulation.AfterTransactions | src/analysis/deposit_emulator.rs:54-56 | ends on the last transaction's date, settings unchanged |
| DepositEmulation.TransactionsAppend | src/analysis/deposit_emulator.rs:54-56 | applying one more transaction after the others is one more `process_transaction` |
| DepositEmulation.Emulation | src/analysis/deposit_emulator.rs:51-62 | ends on the end date with no active period, as the source asserts |
| DepositEmulation.StepEarnsNothing | src/analysis/deposit_emulator.rs:99-130 | a step of a deposit that earns nothing keeps its assets |
| DepositEmulation.ProcessToEarnsNothing | src/analysis/deposit_emulator.rs:96-133 | `process_to` of a deposit that earns nothing keeps its assets |
| DepositEmulation.TransactionsEarnNothing | src/analysis/deposit_emulator.rs:54-56 | a deposit that earns nothing gains exactly its transactions' sum |
| DepositEmulation.EarningNothingKeepsDeposits | src/analysis/deposit_emulator.rs:51-62 | a deposit that earns nothing ends with exactly its deposits less its withdrawals |
| DepositEmulation.ZeroRateReturnsDeposits | src/analysis/deposit_emulator.rs:20-62 | at a zero rate the result is the sum of the transactions |
| DepositEmulation.EmptyTermReturnsDeposits | src/analysis/deposit_emulator.rs:20-26 | a deposit opened and closed on one day returns the sum of its transactions |
| DepositEmulation.ClosingWithdrawalLeavesZero | src/analysis/deposit_emulator.rs:285-294 | withdrawing the emulated result on the end date leaves exactly zero, as the unit tests check |
| DepositEmulation.DepositEmulator.constructor | src/analysis/deposit_emulator.rs:20-39 | the emulator's fields are those of `NewEmulator` |
| DepositEmulation.DepositEmulator.WithMonthlyCapitalization | src/analysis/deposit_emulator.rs:41-44 | only the capitalization flag changes |
| DepositEmulation.DepositEmulator.WithInterestPeriods | src/analysis/deposit_emulator.rs:46-49 | only the periods change, to the custom ones reversed |
| DepositEmulation.DepositEmulator.Emulate | src/analysis/deposit_emulator.rs:51-62 | the fields end as `Emulation` says and the result is the assets |
| DepositEmulation.DepositEmulator.ProcessTransactions | src/analysis/deposit_emulator.rs:54-56 | the fields end as `AfterTransactions` says |
| DepositEmulation.DepositEmulator.SelectInterestPeriod | src/analysis/deposit_emulator.rs:64-89 | the fields end as `AfterSelect` says |
| DepositEmulation.DepositEmulator.ProcessTransaction | src/analysis/deposit_emulator.rs:91-94 | the fields end as `AfterTransaction` says |
| DepositEmulation.DepositEmulator.ProcessTo | src/analysis/deposit_emulator.rs:96-133 | the loop ends with the fields as `AfterProcessTo` says |
| DepositEmulation.DepositEmulator.ProcessInsidePeriod | src/analysis/deposit_emulator.rs:100-113 | one step inside a period, as `AfterStep` says |
| DepositEmulation.DepositEmulator.ProcessOutsidePeriod | src/analysis/deposit_emulator.rs:114-129 | one step outside a period, as `AfterStep` says |
| DepositEmulation.DepositEmulator.AccumulateIncomeTo | src/analysis/deposit_emulator.rs:135-149 | the fields end as `AfterAccumulate` says |
| DepositEmulation.DepositEmulator.Capitalize | src/analysis/deposit_emulator.rs:151-159 | the fields end as `AfterCapitalize` says |
| DepositEmulation.DepositEmulator.CloseInterestPeriod | src/analysis/deposit_emulator.rs:161-167 | the fields end as `AfterClose` says |
| Inflation.NewInflationCalc | src/analysis/inflation.rs:13-23 | succeeds exactly for roubles and dollars, with the matching inflation table; any other currency is an error |
| Inflation.PeriodEnd | src/analysis/inflation.rs:29-33 | a step ends after it starts and no later than today: on today in today's year, otherwise on the next 1 January |
| Inflation.YearDays | src/analysis/inflation.rs:36-38 | the days from a year's 1 January to the next are the days of that year |
| Inflation.AdjustedStep | src/analysis/inflation.rs:26-44 | one step grows the amount by the year's inflation over the step's days, where the table has the year, and goes on from the step's end |
| Inflation.Adjust | src/analysis/inflation.rs:25-47 | the loop computes `Adjusted`; an amount dated today or later is returned unchanged |
| Inflation.NoDataNoChange | src/analysis/inflation.rs:35-41 | years the table lacks leave the amount as it is |
| Inflation.GrowFactor | src/analysis/inflation.rs:40 | a step multiplies the amount by one plus the prorated inflation |
| Inflation.FullYearCompounds | src/analysis/inflation.rs:26-44 | an amount dated 1 January of a past year grows by exactly that year's inflation before going on |
| Inflation.LastYearProrated | src/analysis/inflation.rs:29-31 | in today's year the amount grows by the inflation prorated by the days up to today |
| Inflation.GrowNoLoss | src/analysis/inflation.rs:40 | growth at a non-negative rate never shrinks a non-negative amount |
| Inflation.StepNoLoss | src/analysis/inflation.rs:35-43 | without deflation in its year a step never shrinks a non-negative amount |
| Inflation.NoDeflationNoLoss | src/analysis/inflation.rs:25-47 | with no deflation on the way, a non-negative amount never shrinks |
| Inflation.DaysToNewYear | src/analysis/inflation.rs:32 | the days from a date to the next 1 January |
| Inflation.DaysWithinYear | src/analysis/inflation.rs:30 | the days between two dates of one year |
| Inflation.StepValue | src/analysis/inflation.rs:40 | a step with known inflation, length and year length grows by that formula |
| Inflation.TestRatesFrom1958 | src/analysis/inflation.rs:214-220 | the test table has no 1958 and 1959 and the US rates for 1960 to 1962 |
| Inflation.TestRatesFrom2007 | src/analysis/inflation.rs:214-220 | the test table's rates for 2007 to 2010, 2009 being a deflation |
| Inflation.TestRatesFrom2020 | src/analysis/inflation.rs:214-220 | the test table's rates for 2020 to 2022 and none for 2023 |
| Inflation.AdjustTestFrom1958 | src/analysis/inflation.rs:178-186 | the first unit test's value: no data for 1958 and 1959, two whole years, 4 days of 1962 |
| Inflation.AdjustTest2007FirstStep | src/analysis/inflation.rs:188-192 | the second unit test's first step: 182 of 2007's 365 days |
| Inflation.AdjustTestFrom2007 | src/analysis/inflation.rs:188-200 | the second unit test's value, with the deflation of 2009 and 95 days of 2010 |
| Inflation.AdjustTest2020FirstStep | src/analysis/inflation.rs:202-204 | the third unit test's first step: 182 of 2020's 366 days |
| Inflation.AdjustTestFrom2020 | src/analysis/inflation.rs:202-211 | the third unit test's value: no data for 2023 |
| InstrumentView.AddDayTrade | src/analysis/performance/instrument_view.rs:40-43 | the day list after a trade starts at the trade's date or at the first day already there |
| InstrumentView.AddDayTradeSorted | src/analysis/performance/instrument_view.rs:40-43 | adding a trade keeps the trade days in date order, as the ordered map does |
| InstrumentView.AddDayTradeLookup | src/analysis/performance/instrument_view.rs:38-43 | the entry of `portfolio:symbol` on the trade's date grows by the quantity, created at zero when absent; every other entry stays |
| InstrumentView.NotBeforeFirst | src/analysis/performance/instrument_view.rs:16 | a date before the first trade day has no trades |
| InstrumentView.AfterTrades | src/analysis/performance/instrument_view.rs:113-132 | the day's trades succeed exactly when no balance goes negative |
| InstrumentView.AfterTradesPositive | src/analysis/performance/instrument_view.rs:118-122 | balances that were positive stay positive: those reaching zero are dropped |
| InstrumentView.TradedNothing | src/analysis/performance/instrument_view.rs:114-129 | before any trade the balances are the opening ones |
| InstrumentView.TradedUntouched | src/analysis/performance/instrument_view.rs:114-129 | a symbol not yet traded keeps its opening balance |
| InstrumentView.TradedOthers | src/analysis/performance/instrument_view.rs:114-129 | trading one symbol leaves the others' balances |
| InstrumentView.TradedStep | src/analysis/performance/instrument_view.rs:115-122 | trading one more symbol sets its new balance, or removes it at zero |
| InstrumentView.OpenPosition.constructor | src/analysis/performance/instrument_view.rs:109-111 | opened on the date with no symbols |
| InstrumentView.OpenPosition.Trade | src/analysis/performance/instrument_view.rs:113-132 | fails exactly when a balance would go negative; otherwise the balances become the traded ones without zeros, and the result says whether any are left |
| InstrumentView.ScanErrSticky | src/analysis/performance/instrument_view.rs:66 | the first error ends the scan with that error |
| InstrumentView.ScanFirstDay | src/analysis/performance/instrument_view.rs:62-87 | the first trade day leaves the scan valid |
| InstrumentView.ScanStepOpen | src/analysis/performance/instrument_view.rs:62-68 | a later day leaving the position open keeps the scan valid |
| InstrumentView.ScanStepClose | src/analysis/performance/instrument_view.rs:70-86 | a later day closing the position keeps the scan valid |
| InstrumentView.AddPeriodSeparated | src/analysis/performance/instrument_view.rs:77-84 | extending the last period or appending a new one keeps the periods non-empty, ordered and separated, the last ending on the close date |
| InstrumentView.ScanStep | src/analysis/performance/instrument_view.rs:62-87 | every later trade day keeps the scan valid |
| InstrumentView.ScanDaysValid | src/analysis/performance/instrument_view.rs:62-87 | a successful scan of sorted trade days is valid after the last day |
| InstrumentView.ScanPrefixValid | src/analysis/performance/instrument_view.rs:62-87 | the scan of any prefix of the trade days is valid after the prefix's last day |
| InstrumentView.OpenPositionPeriodsSeparated | src/analysis/performance/instrument_view.rs:77-95 | a successful calculation gives at least one period, and the periods are non-empty, ordered and separated by at least a day |
| InstrumentView.SameDayRoundTrip | src/analysis/performance/instrument_view.rs:71-75 | a position opened and closed on one day gives the one-day period |
| InstrumentView.BadTradeDays | src/analysis/performance/instrument_view.rs:54-99 | selling stock never bought, leaving a position open at the end, and having no trades are all errors |
| InstrumentView.ClosePeriod | src/analysis/performance/instrument_view.rs:70-84 | the period ends the day after a same-day round trip, else on the closing day, and extends the last one when that reaches the opening day |
| InstrumentView.ScanTradeDay | src/analysis/performance/instrument_view.rs:62-87 | one iteration agrees with `ScanDay` on the prefix: the same error, or the same open position and periods |
| InstrumentView.ScanOpenPositions | src/analysis/performance/instrument_view.rs:54-95 | the loop computes `OpenPositionPeriods` |
| InstrumentView.InstrumentDepositView.constructor | src/analysis/performance/instrument_view.rs:23-32 | no trades, transactions or periods, and closed |
| InstrumentView.InstrumentDepositView.Trade | src/analysis/performance/instrument_view.rs:34-44 | the trade days become `AddDayTrade` of the old ones; nothing else changes |
| InstrumentView.InstrumentDepositView.Transaction | src/analysis/performance/instrument_view.rs:46-52 | a non-zero amount is appended as a transaction and a zero one is skipped; nothing else changes |
| InstrumentView.InstrumentDepositView.CalculateOpenPositionPeriods | src/analysis/performance/instrument_view.rs:54-99 | succeeds exactly when `OpenPositionPeriods` does and stores its periods; an error leaves the periods |
| Payments.RemoveFirstMultiset | src/broker_statement/payments.rs:41-45 | removing a reversal succeeds exactly when an equal payment exists, and takes away one copy of it |
| Payments.RemoveReversalsMultiset | src/broker_statement/payments.rs:40-46 | the reversals are accepted exactly when each has its own equal payment; the payments left are the payments less the reversals, as multisets; otherwise "Unexpected reversal" |
| Payments.AddAllSum | src/broker_statement/payments.rs:53-56 | amounts all in the result's currency add up to the result plus their sum |
| Payments.AddAllMixed | src/broker_statement/payments.rs:53-56 | an amount in another currency makes the sum a "Mixed currency" error |
| Payments.SumAmountsPermutation | src/broker_statement/payments.rs:4-5 | the sum of amounts does not depend on their order |
| Payments.AllInPermutation | src/broker_statement/payments.rs:4-5 | whether all amounts share a currency does not depend on their order |
| Payments.TotalUnfold | src/broker_statement/payments.rs:48-58 | the total pops the last payment and adds the others to it |
| Payments.TotalSum | src/broker_statement/payments.rs:48-58 | payments in one currency total their sum in that currency |
| Payments.TotalMixed | src/broker_statement/payments.rs:53-56 | payments in more than one currency are a "Mixed currency" error |
| Payments.TotalPermutation | src/broker_statement/payments.rs:48-58 | the total depends only on the multiset of payments left |
| Payments.OrderIndependent | src/broker_statement/payments.rs:4-5 | the result depends only on which payments and reversals there are, not on their order, as the type's documentation promises |
| Payments.ResultCases | src/broker_statement/payments.rs:40-51 | a reversal without its own payment is an error, and reversals cancelling every payment give no result |
| Payments.ReversalExample | src/broker_statement/payments.rs:37-59 | a reversal removes one equal payment, a duplicate payment stays, mixed currencies and unmatched reversals are errors |
| Payments.Position | src/broker_statement/payments.rs:41-42 | -1 exactly when no payment equals the amount, otherwise the index of the first equal one |
| Payments.RemoveFirstAt | src/broker_statement/payments.rs:41-45 | removing at the first equal index is removing the first equal payment |
| Payments.Payments.constructor | src/broker_statement/payments.rs:12-17 | no payments and no reversals |
| Payments.Payments.Add | src/broker_statement/payments.rs:19-21 | appends the payment; the reversals stay |
| Payments.Payments.Reverse | src/broker_statement/payments.rs:23-25 | appends the reversal; the payments stay |
| Payments.Payments.Merge | src/broker_statement/payments.rs:27-35 | appends the other's payments and then its reversals, in their order |
| Payments.Payments.GetResult | src/broker_statement/payments.rs:37-59 | the result `PaymentsResult` specifies, so it is order-independent by `OrderIndependent` |
| CashFlowDates.AddSpec | src/broker_statement/ib/cash_flows.rs:27-31 | the date joins the end of the id's queue, a new id starting unconsumed with just that date; other ids are untouched |
| CashFlowDates.FallbackDate | src/broker_statement/ib/cash_flows.rs:60-69 | fails exactly when the statement has no period; otherwise the fallback moved up to the period start, never before either |
| CashFlowDates.CashFlows.constructor | src/broker_statement/ib/cash_flows.rs:20-25 | no records, with the given warnings flag |
| CashFlowDates.CashFlows.Add | src/broker_statement/ib/cash_flows.rs:27-31 | the records become `AddSpec` of the old ones; the warnings flag stays |
| CashFlowDates.CashFlows.OnMappingError | src/broker_statement/ib/cash_flows.rs:84-100 | an error in a debug build; otherwise warnings are switched off; the records stay |
| CashFlowDates.CashFlows.Map | src/broker_statement/ib/cash_flows.rs:33-70 | the result and the new state are those `MapSpec` gives: the oldest queued date of the id, else the mapping error, else the fallback |
| CashFlowDates.CashFlows.Commit | src/broker_statement/ib/cash_flows.rs:72-82 | a mapping error when some id took some of its dates but not all; otherwise whether warnings are still on; the records are taken |
| CashFlowDates.LeftoverAdd | src/broker_statement/ib/cash_flows.rs:75-79 | one more id has leftovers exactly when it was consumed and still holds dates |
| CashFlowDates.AddAllAppends | src/broker_statement/ib/cash_flows.rs:27-31 | an id's dates are queued in the order they were added |
| CashFlowDates.MapTakesInOrder | src/broker_statement/ib/cash_flows.rs:45-54 | operations of one id take its queued dates oldest first, the rest staying queued with the id consumed |
| CashFlowDates.ExhaustedIsMappingError | src/broker_statement/ib/cash_flows.rs:45-58 | once an id's queue is empty, its next operation is a mapping error in a debug build and falls back with warnings off otherwise |
| CashFlowDates.NoInformationFallsBack | src/broker_statement/ib/cash_flows.rs:34-43 | without any cash flow information each operation keeps its own date, raised to the period start, and warnings go off |
| CashFlowDates.CommitFlagsPartialQueues | src/broker_statement/ib/cash_flows.rs:72-82 | an id whose queue was partly taken is reported; with none left over, commit succeeds with the warnings flag |
| CashFlowDates.UnusedQueueIsNoLeftover | src/broker_statement/ib/cash_flows.rs:76 | an id none of whose dates was taken is never reported |
| CorporateActions.Joined | src/broker_statement/ib/corporate_actions.rs:79-83 | the joined split carries both changes exactly when its first half carried the shares taken |
| CorporateActions.CorporateActionsParser.constructor | src/broker_statement/ib/corporate_actions.rs:31-35 | no corporate actions |
| CorporateActions.CorporateActionsParser.Add | src/broker_statement/ib/corporate_actions.rs:24-27 | a parsed action is appended |
| CorporateActions.CorporateActionsParser.Commit | src/broker_statement/ib/corporate_actions.rs:37-94 | the statement's actions followed by the joined ones, or the error of joining |
| CorporateActions.PrependConcat | src/broker_statement/ib/corporate_actions.rs:43-84 | pushing two batches one after the other is pushing them together |
| CorporateActions.PassThrough | src/broker_statement/ib/corporate_actions.rs:43-54 | records that open no split pass through unchanged and in order |
| CorporateActions.JoinedAreComplete | src/broker_statement/ib/corporate_actions.rs:57-84 | after joining no first half survives: every split carries the shares given |
| CorporateActions.CommitLeavesNoHalves | src/broker_statement/ib/corporate_actions.rs:37-94 | after a successful commit every split carries the shares given |
| CorporateActions.JoinKeepsNonSplits | src/broker_statement/ib/corporate_actions.rs:43-54 | joining keeps every other action, in its order |
| CorporateActions.DanglingHalfAtEnd | src/broker_statement/ib/corporate_actions.rs:87-91 | a first half as the last record is an "Unsupported stock split" |
| CorporateActions.MismatchedHalf | src/broker_statement/ib/corporate_actions.rs:64-77 | a first half followed by anything but its second half, with the same date, symbol and ratio, is an "Unsupported stock split" |
| CorporateActions.ReverseSplitExample | src/broker_statement/ib/corporate_actions.rs:191-200 | the 1-for-6 reverse split of 31 July 2020 with 80 shares out and 13.3333 in joins into one action |
| MergingConfig.ReverseMaster | src/analysis/config.rs:56-63 | one master's slaves enter the reverse map exactly when none is a master and none already has a master; the error names such a slave |
| MergingConfig.BuildReverse | src/analysis/config.rs:55-64 | succeeds exactly when the new mapping has no slave that is a master and no slave with two masters, giving its inverse; otherwise a cycle or duplicate error about an offending slave |
| MergingConfig.InverseUnique | src/analysis/config.rs:55-64 | a mapping has one reverse map |
| MergingConfig.MergedStep | src/analysis/config.rs:66-85 | one more old master's group joins the master it is attached to |
| MergingConfig.MergedSlave | src/analysis/config.rs:66-85 | a merged slave is a slave of the new mapping or a slave of an old group attached to that master |
| MergingConfig.AttachSlave | src/analysis/config.rs:79-83 | one slave joins the group unless it already has another master, keeping the reverse map the inverse |
| MergingConfig.JoinGroup | src/analysis/config.rs:78-84 | corrected: an old group joins exactly when none of its slaves is a master or has another master; the reverse map stays the inverse |
| MergingConfig.JoinGroupAsWritten | src/analysis/config.rs:78-84 | as written, for the inner slave loop only: an old group is refused only for a slave with another master, so a slave that is a master of the new mapping gets through; the rest of `add_mapping` is modelled by the corrected `PerformanceMergingConfig.AddMapping` |
| MergingConfig.AttachMaster | src/analysis/config.rs:66-85 | one old master's group joins its superior master exactly when it causes no conflict |
| MergingConfig.JoinableOnOldGroup | src/analysis/config.rs:66-85 | an old group may join exactly when it is free of conflicts |
| MergingConfig.JoinPrevious | src/analysis/config.rs:66-85 | every old group joins the new mapping, or the error names the first conflict |
| MergingConfig.MergedNoCycles | src/analysis/config.rs:66-85 | joining without conflict leaves no slave that is also a master |
| MergingConfig.MasterNotSlave | src/analysis/config.rs:47-49 | in a consistent configuration a master is nobody's slave |
| MergingConfig.MapSendsSlaveToMaster | src/analysis/config.rs:47-49 | `map` sends a slave to its master and leaves a master alone |
| MergingConfig.MapSymbol | src/analysis/config.rs:47-49 | a symbol with a master goes to that master; any other symbol is returned as it is |
| MergingConfig.PerformanceMergingConfig.Map | src/analysis/config.rs:47-49 | `map` of the configuration; in a consistent configuration its result is mapped to itself, so mapping twice is mapping once |
| MergingConfig.MapIdempotent | src/analysis/config.rs:47-49 | mapping a symbol twice is mapping it once |
| MergingConfig.MergedPairs | src/analysis/config.rs:51-89 | the merged pairs are the new mapping's and each old pair under the master its group joins, and nothing else |
| MergingConfig.GroupFollowsSuperior | src/analysis/config.rs:67-71 | an old master that became a slave is no longer a master, its group having moved to its superior |
| MergingConfig.SameMappingTwice | src/analysis/config.rs:110-130 | adding a consistent configuration to itself is accepted and changes nothing, as the test's second iteration relies on |
| MergingConfig.ChainedMappingAccepted | src/analysis/config.rs:78-84 | the old group ABC = [A] followed by the new group A = [X] is accepted as written and refused by the corrected check |
| MergingConfig.ChainedGroupJoinsAsWritten | src/analysis/config.rs:78-84 | as written ABC takes A, which stays the master of X, so a slave is a master |
| MergingConfig.ChainedMapNotIdempotent | src/analysis/config.rs:47-49 | the reverse map left sends X to A and A on to ABC, so `map` is not idempotent |
| MergingConfig.DuplicatedSymbolRefused | src/analysis/config.rs:121-124 | the mapping whose groups LM and LN share L is refused, reporting L |
| MergingConfig.CycleRefused | src/analysis/config.rs:126-129 | the mapping making the master LM a slave of LMN is refused, reporting LM |
| MergingConfig.PerformanceMergingConfig.constructor | src/analysis/config.rs:35-39 | the default configuration merges nothing |
| MergingConfig.PerformanceMergingConfig.AddMapping | src/analysis/config.rs:51-89 | accepts exactly a consistent mapping that joins the old groups without conflict, leaving the merged mapping and its inverse; an error leaves the configuration unchanged and is the first-pass or the second-pass error |
| MergingConfig.PerformanceMergingConfig.Add | src/analysis/config.rs:42-45 | `add_mapping` of the other's mapping, its error put in context |
| CbrDeposits.LastYearExists | src/quotes/cbr/deposits.rs:51 | a non-empty set of years has a latest one |
| CbrDeposits.LastYear | src/quotes/cbr/deposits.rs:51 | the latest year with rates, the key `last_key_value` finds |
| CbrDeposits.LastYearUnique | src/quotes/cbr/deposits.rs:51 | the latest year is unique |
| CbrDeposits.DepositStatistics.constructor | src/quotes/cbr/deposits.rs:39-46 | the given name, currency and duration, and no rates |
| CbrDeposits.DepositStatistics.LastKeyValue | src/quotes/cbr/deposits.rs:51-58 | none exactly when there are no rates, otherwise the latest year and its rates |
| CbrDeposits.DepositStatistics.Add | src/quotes/cbr/deposits.rs:48-71 | accepts exactly what `AddSpec` accepts and then stores its rates; on an error the rates are unchanged and the message is the one `AddSpec` gives |
| CbrDeposits.AddToEmpty | src/quotes/cbr/deposits.rs:62-68 | the first rate is accepted only for January, opening the series in that year |
| CbrDeposits.AddToKnownYear | src/quotes/cbr/deposits.rs:49-55 | a rate for a year already there is accepted only as the month after the series' last one |
| CbrDeposits.AddToNewYear | src/quotes/cbr/deposits.rs:58-68 | a rate for a new year is accepted only as the January after a complete latest year |
| CbrDeposits.AddExtendsSeries | src/quotes/cbr/deposits.rs:48-71 | the statistics are one series of consecutive months from a January: exactly the next month is accepted, and it is appended |
| CbrDeposits.ParseIntText | src/quotes/cbr/deposits.rs:245 | every 32-bit integer reads back from its decimal text |
| CbrDeposits.MonthNumber | src/quotes/cbr/deposits.rs:246-260 | the number of a month name, from 1 to 12 and naming that month in the table; none for any other text |
| CbrDeposits.ParseDate | src/quotes/cbr/deposits.rs:242-263 | an accepted date has a month from 1 to 12 |
| CbrDeposits.MonthNumberOfName | src/quotes/cbr/deposits.rs:246-260 | each name in the table reads back as its month |
| CbrDeposits.ParseDateRoundTrip | src/quotes/cbr/deposits.rs:242-263 | every month of every 32-bit year reads back from its name, a space and the year |
| CbrDeposits.ParseDateAccepts | src/quotes/cbr/deposits.rs:242-263 | only a month name, one space and a 32-bit year are accepted |
| Texts.Split | tests/retest/src/bin/retest/cli.rs:110 | `split(c)`: the pieces between the separators, empty ones included, none holding the separator |
| Texts.SplitJoin | tests/retest/src/bin/retest/cli.rs:110 | the pieces joined back with the separator give the whole string, and none holds it |
| Texts.SplitOnce | tests/retest/src/bin/retest/cli.rs:111 | `splitn(2, c)`: one piece when the separator is absent, otherwise the texts before and after its first occurrence |
| Texts.ParseUnsigned | tests/retest/src/bin/retest/cli.rs:113 | an unsigned number is accepted exactly when the text is an optional '+' and decimal digits whose value is below the type's limit, and its value is that of the digits |
| Texts.ParseDigits | tests/retest/src/bin/retest/cli.rs:113 | every number below the limit reads back from its decimal digits |
| RetestCli.Range | tests/retest/src/bin/retest/cli.rs:127-129 | `start..=end`: exactly the numbers from start to end |
| RetestCli.SpanNumbers | tests/retest/src/bin/retest/cli.rs:111-130 | an accepted span selects numbers of at least 1 only |
| RetestCli.AddSpansStep | tests/retest/src/bin/retest/cli.rs:110-131 | the spans are taken in order: a refused span stops the parse with its error, an accepted one adds its numbers |
| RetestCli.InsertRange | tests/retest/src/bin/retest/cli.rs:127-129 | the inner loop inserts exactly the numbers from start to end |
| RetestCli.ParseNumbers | tests/retest/src/bin/retest/cli.rs:109-133 | the in-place parse returns the result and the set the span-by-span definition gives, numbers before a refused span staying inserted |
| RetestCli.AddSpansKeeps | tests/retest/src/bin/retest/cli.rs:109-133 | the numbers already in the set stay, and every added number is at least 1 |
| RetestCli.AddSpansCollects | tests/retest/src/bin/retest/cli.rs:109-133 | an accepted list accepts every span and adds exactly the numbers its spans select |
| RetestCli.SingleNumber | tests/retest/src/bin/retest/cli.rs:112-117 | a single number of at least 1 selects that test |
| RetestCli.RangeOfNumbers | tests/retest/src/bin/retest/cli.rs:118-129 | `low-high` with 1 <= low <= high selects every test from low to high |
| RetestCli.ZeroRefused | tests/retest/src/bin/retest/cli.rs:114-121 | zero is refused, alone or as the low end of a range, with "each test number must be 1 or more" |
| RetestCli.DescendingRangeRefused | tests/retest/src/bin/retest/cli.rs:124-125 | a range whose high end is below its low end is refused with "test ranges must have the form low-high" |
| TimeParsing.ParseDuration | src/time/parsing.rs:65-85 | accepted exactly when the text is a number without a leading zero then m, h or d and the number fits in an i64; otherwise "Invalid duration: " and the text |
| TimeParsing.DigitsOfValue | src/time/parsing.rs:66 | a digit text without a leading zero is the decimal form of its value |
| TimeParsing.DurationRoundTrip | src/time/parsing.rs:65-85 | every positive i64 with a unit reads back as that many minutes, hours or days in seconds |
| TimeParsing.DurationAccepts | src/time/parsing.rs:65-85 | only the decimal form of a positive number followed by a unit is accepted, for that number times the unit's seconds |
| TimeParsing.DurationRejects | src/time/parsing.rs:66-71 | zero, a leading zero, a unit other than m, h and d, and a missing number are refused |
| TimeParsing.ReadField | src/time/parsing.rs:12-15 | a number field is accepted exactly when it has one to `width` digits, and its value is theirs |
| TimeParsing.ParseDate | src/time/parsing.rs:12-15 | a refused date reports "Invalid date: " and the quoted text |
| TimeParsing.ParseUserDate | src/time/parsing.rs:17-19 | accepted exactly when one of the two formats accepts; the year-first reading wins; otherwise "Invalid date" |
| TimeParsing.TwoDigits | src/time/parsing.rs:17-19 | a month or a day written with two digits reads back as itself |
| TimeParsing.YearFirstRoundTrip | src/time/parsing.rs:17-19 | a date of a four-digit year written "%Y.%m.%d" reads back |
| TimeParsing.DayFirstRoundTrip | src/time/parsing.rs:17-19 | a date written "%d.%m.%Y" is refused by the year-first format and read back by the day-first one |
| Rebalancing.TotalMax | src/portfolio/rebalancing.rs:95-107 | the total of the greatest values exists exactly when every asset has one |
| Rebalancing.PropagateZeroWeight | src/portfolio/rebalancing.rs:112-125 | a deprecated asset's greatest value becomes its least one and nothing else of it changes but its children; a stock stays a stock and a group a group |
| Rebalancing.Bounded | src/portfolio/rebalancing.rs:65-86 | the asset's own bounds keep its kind and the number of its children |
| Rebalancing.Restricted | src/portfolio/rebalancing.rs:65-91 | the restricted asset keeps its kind and the number of its children |
| Rebalancing.TotalsOrdered | src/portfolio/rebalancing.rs:93-107 | totals of bounds that are each met are met: the least total is not negative and not above the greatest one |
| Rebalancing.TotalMinSame | src/portfolio/rebalancing.rs:93 | assets with the same least values have the same least total |
| Rebalancing.ZeroTotalMin | src/portfolio/rebalancing.rs:113-116 | non-negative least values that sum to zero are all zero |
| Rebalancing.TotalsNonNegative | src/portfolio/rebalancing.rs:93 | non-negative least values have a non-negative total |
| Rebalancing.PropagateKeepsBounds | src/portfolio/rebalancing.rs:112-125 | pinning an asset at its least value keeps its bounds met |
| Rebalancing.RestrictedWellBounded | src/portfolio/rebalancing.rs:60-110 | with no stock held at a negative value, every asset's bounds from `calculate_restrictions` are met, so the assertion of line 96 never fails |
| Rebalancing.RestrictedStock | src/portfolio/rebalancing.rs:68-79 | a stock's least value is its current one exactly when selling is restricted, otherwise zero; its greatest value is its current one exactly when buying is restricted, otherwise none |
| Rebalancing.RestrictedGroup | src/portfolio/rebalancing.rs:66-107 | a group's least value is the sum of its children's; it has a greatest value exactly when it is deprecated or all its children have one |
| Rebalancing.ZeroWeightFreezes | src/portfolio/rebalancing.rs:112-125 | a deprecated asset whose bounds are met ends up with nothing inside it able to grow above its least value |
| Rebalancing.DeprecatedFrozen | src/portfolio/rebalancing.rs:88-91 | every deprecated asset is frozen at its least value |
| Rebalancing.PropagateZeroWeightAsWritten | src/portfolio/rebalancing.rs:112-125 | where none of the assertions fails, the result is the pinned asset |
| Rebalancing.ZeroMinAssertsHold | src/portfolio/rebalancing.rs:113-118 | the assertion of line 116 holds on bounds that are met |
| Rebalancing.StockAssertsHold | src/portfolio/rebalancing.rs:120-122 | on a stock the assertion of line 121 holds: restricted both ways it is pinned at its current value |
| Rebalancing.MixedDeprecatedGroupAborts | src/portfolio/rebalancing.rs:120-122 | a deprecated group of a stock restricted both ways and one restricted in buying only fails the assertion of line 121, though its bounds are met and pinning it is sound; `AssertsHold` is false on it, so `CalculateRestrictions` excludes it, as the program aborts there |
| Rebalancing.CalculateRestrictions | src/portfolio/rebalancing.rs:60-110 | requires that no assertion of lines 96, 116 and 121 fires on any asset, as the program aborts otherwise; every asset of the array becomes its restricted form, and the totals of its least and greatest values are returned |
| Rebalancing.NoDeprecatedGroupsAssertsHold | src/portfolio/rebalancing.rs:60-125 | with no stock held at a negative value and no deprecated group, none of the assertions of lines 96, 116 and 121 fires |
| Rebalancing.PrefixMin | src/portfolio/rebalancing.rs:93 | the running least total of the loop is the least total |
| Rebalancing.PrefixTotals | src/portfolio/rebalancing.rs:95-107 | the greatest total of the assets is the others' plus the last one's, and none when either is missing |
| Rebalancing.RoundMinTradeVolume | src/portfolio/rebalancing.rs:746-748 | the volume rounded up to a whole number of granularity units: not below it and less than one unit above |
| Rebalancing.SellVolume | src/portfolio/rebalancing.rs:677-700 | the chosen sale is positive and leaves the asset at its current value or at least the minimum trade volume away from it |
| Rebalancing.MinSellVolume | src/portfolio/rebalancing.rs:674-707 | a sale is offered exactly when it keeps the target at or above the least value, and it is the chosen volume |
| Rebalancing.BuyVolume | src/portfolio/rebalancing.rs:712-735 | the chosen purchase is positive and leaves the asset at its current value or at least the minimum trade volume away from it |
| Rebalancing.MinBuyVolume | src/portfolio/rebalancing.rs:709-744 | a purchase is offered exactly when there is no greatest value or it keeps the target at or below it, and it is the chosen volume |
| Rebalancing.PossibleTrade | src/portfolio/rebalancing.rs:506-533 | a possible trade moves the target the right way by a positive amount, never past the bounds, never buying beyond the free cash, and leaves no trade or one of at least the minimum volume |
| Rebalancing.TradeKeepsBounds | src/portfolio/rebalancing.rs:506-533 | a possible trade keeps the target within the bounds it was within |
| Rebalancing.RefusedPastBounds | src/portfolio/rebalancing.rs:702-741 | a sale is refused exactly when it would take the target below the least value, a purchase exactly when above the greatest |
| GroupRebalancing.TargetSumUpdate | src/portfolio/rebalancing.rs:181-182 | replacing one asset changes the sum of the targets by the change of its target |
| GroupRebalancing.WeightSumSame | src/portfolio/rebalancing.rs:156 | assets with the same weights have the same sum of weights |
| GroupRebalancing.ShareAdd | src/portfolio/rebalancing.rs:156 | the shares of two weights add up to the share of their sum |
| GroupRebalancing.InitialTargetIgnoresTarget | src/portfolio/rebalancing.rs:155-165 | the rounded target depends on the share and the holding, not on the target before |
| GroupRebalancing.InitialTradeLargeEnough | src/portfolio/rebalancing.rs:176-178 | the planned trade is none or at least the minimum trade volume |
| GroupRebalancing.StockDifferenceWholeUnits | src/portfolio/rebalancing.rs:167-174 | a stock's rounded difference is a whole number of trade units |
| GroupRebalancing.InitialTradeWholeUnits | src/portfolio/rebalancing.rs:164-182 | a stock's planned trade is a whole number of its trade units |
| GroupRebalancing.StockDifferenceNotBelowHolding | src/portfolio/rebalancing.rs:170-173 | rounding to whole units never plans to sell more than is held |
| GroupRebalancing.InitialTargetNotNegative | src/portfolio/rebalancing.rs:164-182 | a stock's initial target is not negative when neither its share nor its holding is |
| GroupRebalancing.RestrictMeetsBounds | src/portfolio/rebalancing.rs:202-224 | bounds that can be met are met after the restrictions, a target within them is kept, and nothing but the target and the blocked flags changes |
| GroupRebalancing.RestrictMovesToBound | src/portfolio/rebalancing.rs:203-223 | a target the restrictions move lands on the bound it crossed |
| GroupRebalancing.SameTreesTransitive | src/portfolio/rebalancing.rs:136-151 | keeping everything but targets and blocked flags composes over the steps |
| GroupRebalancing.SameTreesShaped | src/portfolio/rebalancing.rs:136-151 | keeping the trees keeps the shape and the granularities the later steps divide by |
| GroupRebalancing.SettingsTransitive | src/portfolio/rebalancing.rs:136-151 | the settings after all four steps are those before |
| GroupRebalancing.UnmovedStep | src/portfolio/rebalancing.rs:264-267 | changing one target that stays within bounds it met keeps every other asset and bound |
| GroupRebalancing.UnmovedTransitive | src/portfolio/rebalancing.rs:232-269 | the two trade types' corrections compose |
| GroupRebalancing.ShareOfWhole | src/portfolio/rebalancing.rs:282-285 | a whole share of a total is the total |
| GroupRebalancing.AssetGroupRebalancer.constructor | src/portfolio/rebalancing.rs:140-143 | the assets, the total and the minimum trade volume are those given and the balance is zero |
| GroupRebalancing.AssetGroupRebalancer.SpreadByWeight | src/portfolio/rebalancing.rs:155-160 | every asset's target becomes its share of the total and nothing else changes; the targets sum to the share of the weights' sum |
| GroupRebalancing.AssetGroupRebalancer.RoundTargets | src/portfolio/rebalancing.rs:164-183 | every target becomes its rounded initial target, and the targets with the balance keep their sum |
| GroupRebalancing.AssetGroupRebalancer.CalculateInitialTargetValues | src/portfolio/rebalancing.rs:153-186 | every asset gets its initial target, and the targets with the balance add up to the balance before plus the total spread by weight |
| GroupRebalancing.AssetGroupRebalancer.ApplyRestrictions | src/portfolio/rebalancing.rs:188-227 | every asset becomes its restricted form, and the targets with the balance keep their sum |
| GroupRebalancing.AssetGroupRebalancer.MakeTrade | src/portfolio/rebalancing.rs:264-267 | one asset's target moves by its possible trade's volume and the balance the other way; a target within bounds stays within them, and a non-negative balance stays non-negative |
| GroupRebalancing.AssetGroupRebalancer.CorrectFor | src/portfolio/rebalancing.rs:235-268 | the trades of one type keep the sum of targets and balance, keep every target within the bounds it met, change only targets, and never make a non-negative balance negative |
| GroupRebalancing.AssetGroupRebalancer.CorrectBalance | src/portfolio/rebalancing.rs:229-272 | sales then purchases, with the same guarantees as each of them |
| GroupRebalancing.AssetGroupRebalancer.PropagateInto | src/portfolio/rebalancing.rs:281-287 | one group is rebalanced towards its target and its leftover balance moves here; only that group changes, and with weights adding up to one its target becomes its children's sum |
| GroupRebalancing.AssetGroupRebalancer.PropagateChanges | src/portfolio/rebalancing.rs:274-295 | the sum of targets and balance is kept, stocks are untouched, settings are kept, and every group whose weights add up to one ends with its children's sum as its target |
| GroupRebalancing.AssetGroupRebalancer.Rebalance | src/portfolio/rebalancing.rs:136-151 | after the four steps the group's targets and the returned balance add up to the total spread by weight, and no asset's settings change |

## Left out

- Currency conversion: the converter and the Central Bank rate tables are an abstract total function of the date and the currencies; FX fetching, the rate cache and the real-time rate (taken as the rate at a `today` parameter) are not part of this model.
- `util::round_with` and `RoundingMethod`: `src/util.rs` is not part of this model; `Round` is taken as half away from zero (the rounding tests of `src/currency/mod.rs` agree), `ToBigger` as the ceiling and `Truncate` as rounding toward zero.
- Panics: every `assert!`, `unwrap` and `panic!` of the core becomes a `requires` on the caller, except where the model returns the failed assertion as a value (`Rebalancing.PropagateZeroWeightAsWritten`, `Trades.CalculateImpl`).
- Decimal precision: `Decimal` is modelled as exact real arithmetic, so its 28-digit precision and its inexact division are not; `Fifo.ProRateAdditive` (the lots of a buy carry exactly its whole commission) holds exactly only in real arithmetic, where the program's `commission / quantity * sell_quantity` may be off in the last digit.
- `Fifo.SourceOf`: `mod.rs` lines 322-329 build a `StockSellSource` without the `volume` and `multiplier` fields that `trades.rs` declares and reads; the model gives the lot the buy's volume prorated by the quantity and the multiplier 1, and that volume is the lot's cost in `FifoDetails::new`.
- `Trades.CalculateImpl` returns "Got a negative tax deduction" where the program's assertion fails. That this cannot happen is proved when the taxable profit does not exceed the local profit or rounds to nothing (`Trades.MixedExemptionDeduction`), when no lot is exempt and when every lot is. It is not proved for a sell with both exempt and taxed lots: each exempt lot makes a profit and no taxed one does, so in exact arithmetic the taxable profit is never above the local one; but the lots' profits use price × quantity while the sell uses its rounded volume, and every conversion rounds to cents on its own, and the model does not bound those differences.
- `BrokerStatements.BrokerStatement.ProcessTrades`: on the "There are no open positions for it" error (src/broker_statement/mod.rs:307-316) the program has already recorded the lots of the earlier sells and raised the buys' `sold` counters in place, while the model leaves `stockBuys` and `stockSells` unchanged on every error. No caller sees the difference, because each passes the error up and drops the statement (src/broker_statement/mod.rs:149).
- `Rebalancing.CalculateRestrictions` requires that none of the assertions of rebalancing.rs lines 96, 116 and 121 fires (`Rebalancing.AssertsHold`), since the program aborts there; under that requirement the program's result is the corrected `Rebalancing.Restricted`, and `Rebalancing.MixedDeprecatedGroupAborts` shows an input the requirement excludes.
- `NetCalculator.NetTaxCalculator.Valid` takes the country's trading tax rates as non-negative, which the program never checks; the non-negative deduction of `calculate` rests on it.
- `BrokerStatements.BrokerStatement.EmulateSell`: the errors the commission specification may return while computing the commission (a failed currency conversion) are not modelled; the whole-share count of a `u32` quantity always fits, so the calculator never refuses the trade.
- Integer widths: share counts (`u32`) and quantities are unbounded naturals; the 32-bit range is modelled only where the program parses numbers (`CbrDeposits`, `PaymentDays`, `RetestCli`).
- `LtoDeductionCalculator` and `TaxExemption::is_applicable` are not part of this model: the long-term ownership deduction enters the net tax as zero and each exemption enters `calculate_impl` as its pair of flags.
- Error messages carry the program's fixed text without its interpolated values, and the `Display` text of a Rust `ParseIntError` is a fixed string.
- Logging, `debug!` output, `get_current_state`, `log_state_changes` and the debug-build checks (the latter modelled as a `strict` flag in `CashFlowDates`) are left out: they have no effect on results.
- Iteration order of a `HashMap` or `HashSet`: every loop over one is proved for any order, so which of several equal errors is reported first is not modelled.
- Statement file parsers, quote providers, databases, the tax statement writer, telemetry, the command line and the backtesting and performance analysers are outside the core and are not part of this model.
- `src/broker_statement/corporate_actions.rs` and the regex-based `parse` of IB corporate action records are not part of this model; `CorporateActions.CorporateActionsParser.Commit` does not model the actions already pushed when an error aborts the commit.
- `src/broker_statement/ib/cash_flows.rs`: the parsing of the cash flow records is left out; only the date mapping queue is modelled.
- The concrete maps of the `config_merging` test are not proved: their ground inverse-map checks are too costly for the solver; the generic lemmas `MergingConfig.SameMappingTwice`, `MergingConfig.GroupFollowsSuperior` and `MergingConfig.MergedPairs` state what that test checks.
- `CbrDeposits.DepositStatistics.Add`: the `i32` overflow of `last_year + 1` is not modelled (the years are 32-bit values and a year above `i32::MAX` cannot be reached); the spreadsheet, network, `today()` and logging parts of the Central Bank deposit statistics are left out.
- `TimeParsing.ParseDuration` does not model the `i64` overflow of the multiplication by the unit or the panic of `Duration::seconds` on it: the number of seconds is an unbounded integer.
- `TimeParsing.ParseUserDate` does not model chrono's acceptance of surrounding whitespace, signs or years wider than four digits; its round-trip lemmas cover four-digit years only.
- `TimeParsing.ParseDate` states only its error message; what it accepts is stated by `TimeParsing.YearFirstRoundTrip` and `TimeParsing.DayFirstRoundTrip`.
- `NetCalculator.NetTaxCalculator.AddProfit` requires the taxable profit not to exceed the total, which the program asserts in `calculate` (net_calculator.rs:74).
- `DepositEmulation.DepositEmulator.Emulate` requires chronological transactions, which the program asserts in `process_to`.
- The stable sorts of the statement are modelled as stable insertions by key; the sorting algorithm itself is not.
- Rebalancing: nested groups are rebuilt as values and written back into the parent's array, not updated in place; the granularities are taken positive; `iterative_trading_granularity` and `StockHolding` enter as the asset's two granularities; the `Option<bool>` restrictions become `bool` with `None` read as false; `Decimal::is_sign_positive` of a signed zero is modelled as `>= 0`.
- `GroupRebalancing.AssetGroupRebalancer.CorrectFor` abstracts the choice of the best trade: `get_best_trade` and the `f64` `calculate_trade_result` are not modelled, any asset with a possible trade may be chosen, and the loop is bounded by a `budget` fuel that the program does not have.
- `calculate_result_value`, `distribute_cash_assets`, the rebalancing commissions, `change_to` and the `rebalance_portfolio` driver are not part of this model.
- `src/commissions/tiered.rs` is not compiled into the program (`dead_code`); it is modelled as written.

## Findings

| source | as written | input that shows it | evidently intended | confidence | as-written member | corrected member |
|---|---|---|---|---|---|---|
| src/broker_statement/validators.rs:28 | the latest date of the sorted slice is read with `first()`, so only the earliest date is compared with the period's end | dates 2020-06-01 and 2021-02-01 with the period 2020-01-01..2020-12-31: the second date is outside the period and the dates are accepted | the upper bound is checked against the last (latest) date | high, not executed | Validators.ValidateAsWritten (Validators.AsWrittenMissesLateDate) | Validators.Validate (Validators.ValidatedWithinPeriod) |
| src/analysis/config.rs:78-84 | an old slave that becomes a master of the new mapping is merged without a cycle check | old mapping ABC: [A], new mapping A: [X]: accepted, and `map` sends X to A but A to ABC, so mapping twice differs from mapping once | a symbol that is already merged into another cannot become a master, as lines 57-59 refuse within one mapping | medium, not executed | MergingConfig.JoinGroupAsWritten (MergingConfig.ChainedMappingAccepted, MergingConfig.ChainedMapNotIdempotent) | MergingConfig.PerformanceMergingConfig.AddMapping (MergingConfig.MergedNoCycles, MergingConfig.MapIdempotent) |
| src/portfolio/rebalancing.rs:121 | `propagate_zero_weight` asserts that a deprecated asset with a positive least value has no greatest value other than its least one | a deprecated group of a stock restricted both ways held at 10 and a stock restricted in buying only held at 5: least value 10, greatest 15, and the assertion aborts the program | a deprecated asset is pinned at its least value, which its bounds always allow | medium, not executed | Rebalancing.PropagateZeroWeightAsWritten (Rebalancing.MixedDeprecatedGroupAborts) | Rebalancing.Restricted (Rebalancing.ZeroWeightFreezes, Rebalancing.DeprecatedFrozen) |
