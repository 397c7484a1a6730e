# UK income-tax band allocator (2025/26), modelled in Dafny

This project models the calculation engine of `taxcalc`, a small browser
application that works out a UK taxpayer's income tax for 2025/26. The
engine takes six income figures (salary, rental income, pension income,
untaxed interest, dividends, direct pension contributions) and an optional
`otherIncome`. From them it:

- classifies income as general (salary + rent + pension), savings (interest)
  and dividends;
- tapers the personal allowance above £100,000 of adjusted net income;
- widens the basic-rate band by direct pension contributions;
- threads one basic-rate-band tracker through three allocators, in the order
  general → savings → dividends;
- reports the itemised lines (`taxByBand`), total tax, the effective rate and
  taxable income.

The savings allocator is the hard part. It has two passes. First it runs a
provisional split across the basic, higher and additional bands, tracking the
highest rate reached. It then carves the savings allowance for that rate back
out of the pending lines, lowest band first. A conditional 0% starting-rate
slice comes before both passes. A separate validator checks the structure of
a stored vault (the JSON object holding the input and the last result) before
the application uses it.

Everything is immutable. A tracker is a value, and each allocator returns
its lines together with the tracker it leaves behind (`TaxBand.Allocation`).
Money and rates are exact `real`s, and `Math.floor` is `.Floor`.

Modules and files:

| file | module | models |
|---|---|---|
| `wrappers.dfy` | `Wrappers`, `Reals` | `Option`/`Result`; `Math.min`/`Math.max` |
| `tax_constants.dfy` | `TaxConstants` | the rate schedule and the band/category labels |
| `trackers.dfy` | `BasicRateBandTracker`, `AllowanceTracker` | the two depletable quotas |
| `tax_input.dfy` | `TaxInput` | the input record, total and adjusted net income |
| `tax_band.dfy` | `TaxBand` | a band line, allocations, and sums over lines |
| `general_tax.dfy` | `GeneralTax` | the three-band cascade and the general allocator |
| `rental_tax.dfy` | `RentalTax` | the rental allocator |
| `savings_tax.dfy` | `SavingsTax` | starting rate, provisional split, allowance carve-back |
| `dividend_tax.dfy` | `DividendTax` | dividend allowance and dividend cascade |
| `tax_calculation.dfy` | `TaxCalculation` | the orchestrator and five worked scenarios |
| `schema.dfy` | `Schema` | `parseVault` over JSON values |

Behaviour of the code worth knowing when reading the model:

- The code counts rental income as general income
  (`src/services/TaxCalculationService.ts:74`) and never calls the rental
  allocator, so the personal allowance comes off salary, rent and pension
  together. `RentalTax.CalculateRentalTax` is modelled on its own, as it
  stands.
- `otherIncome` counts only towards total and adjusted net income. It
  affects the allowance and the effective rate but appears in no band
  (`TaxCalculation.OtherIncomeOnlyThroughAllowance`).
- In the mixed-income scenario (rent 25,000, interest 2,000, dividends
  20,000) the rent is taxed at 20% as general income:
  `TaxCalculation.MixedIncomeTaxes` gives general tax of 2,486.
- The basic-rate band is shared across categories, but each category's
  higher band is its own fixed-width band of 87,440. As a result, savings
  and dividends above an additional-rate salary are taxed at the higher
  rate, not the additional rate. In the additional-rate scenario the
  higher-band lines of the three categories hold 101,940 together
  (`TaxCalculation.AdditionalRateTaxpayerTaxes`).
- Leftover personal allowance is offered only to the starting-rate slice,
  not to savings or dividends themselves. With a small salary, taxable
  income (general + savings + dividends − allowance) is therefore
  strictly less than the amount on the itemised lines
  (`TaxCalculation.CalculateTaxTaxable`).

## Model

| member | source | states |
|---|---|---|
| TaxConstants.ScheduleConsistent | src/constants/taxConstants.ts:3-32 | the higher band is 87,440 wide; basic < higher < additional for both the general and the dividend rates; the savings allowances shrink as the rate rises; the taper removes the whole allowance exactly at 125,140; the starting rate is 0% on up to 5,000 |
| TaxConstants.LabelsDistinct | src/constants/taxConstants.ts:34-44 | distinct bands and categories carry distinct labels (the `Rental` category label is assumed, see "## Left out"), so an entry's label identifies its band or category |
| BasicRateBandTracker.Use | src/models/BrbTracker.ts:8-12 | takes the lesser of the request and what is left, and the quota falls by exactly that; it is never overdrawn, and a request at or above the quota empties it |
| BasicRateBandTracker.UseTwice | src/models/BrbTracker.ts:8-12 | two successive requests take, together, the lesser of the quota and their sum: consuming in steps is consuming at once |
| BasicRateBandTracker.UseNothing | src/models/BrbTracker.ts:8-12 | asking for nothing takes nothing and leaves the quota unchanged |
| AllowanceTracker.ApplyTo | src/models/PersonalAllowanceTracker.ts:9-13 | the allowance applied is the lesser of income and allowance; income after it lies between 0 and the income, and the tracker keeps the rest |
| AllowanceTracker.ApplyToNeverRaises | src/models/PersonalAllowanceTracker.ts:9-13 | successive applications only lower the allowance, and together they apply the lesser of the allowance and the combined income |
| TaxInput.GetTotalIncome | src/models/TaxCalculationInput.ts:11-20 | total income is the five figures plus other income, an absent `otherIncome` counting as 0; it is non-negative for non-negative figures |
| TaxInput.GetAdjustedNetIncome | src/models/TaxCalculationInput.ts:22-24 | adjusted net income plus pension contributions is total income |
| TaxInput.MissingOtherIncomeIsZero | src/models/TaxCalculationInput.ts:18 | an absent `otherIncome` gives the same totals as an explicit 0 |
| GeneralTax.CascadeContract | src/services/GeneralTaxService.ts:6-51 | the lines are basic, higher, additional in that order at their band rates; the amounts add up to the positive part of the income; the tracker loses exactly the basic line; a basic line appears iff there is income and band left, and holds min(income, band); the higher line is at most 87,440; an additional line appears iff income overflows both |
| GeneralTax.CascadeTax | src/services/GeneralTaxService.ts:6-51 | the tax on the lines equals an independent marginal schedule: 20% up to the remaining basic band, 40% on the next 87,440, 45% above |
| GeneralTax.CalculateGeneralIncomeTax | src/services/GeneralTaxService.ts:6-51 | no lines and an untouched tracker for income ≤ 0; every line is `General`; the tax is the marginal-schedule tax |
| GeneralTax.GeneralContract | src/services/GeneralTaxService.ts:6-51 | the lines are positive and priced amount × rate, add up to the income, charge the tracker exactly their basic part without overdrawing it, and no rate exceeds 45% |
| GeneralTax.GeneralFiftyThousand | src/services/GeneralTaxService.test.ts:138-147 | 50,000 with a full band gives 37,700 at 20% and 12,300 at 40% |
| GeneralTax.GeneralTwoHundredThousand | src/services/GeneralTaxService.test.ts:160-169 | 200,000 gives 37,700 basic, 87,440 higher and 200,000 − 125,140 additional |
| RentalTax.CalculateRentalTax | src/services/RentalTaxService.ts:8-60 | nothing for rent ≤ 0; otherwise the cascade's shape at rental rates with every rate positive, amounts adding up to the rent, a basic line iff band remains, the tracker charged its basic part, and the higher line at most 87,440 |
| RentalTax.RentalIgnoresExtraInputs | src/services/RentalTaxService.ts:8-16 | the gross non-savings income, personal allowance and general lines passed in do not affect the result |
| RentalTax.RentalEightThousand | src/services/RentalTaxService.test.ts:32-55 | 8,000 of rent with 5,000 of band left gives 5,000 basic, 3,000 higher and no 0% line |
| SavingsTax.MaxRateOf | src/services/SavingsTaxService.ts:17 | the maximum rate of the lines handed in bounds every rate and is attained by one of them |
| SavingsTax.StartingSliceBounds | src/services/SavingsTaxService.ts:20-34 | the starting slice is positive iff non-savings income is below the allowance, and is then min(savings, 5,000, allowance − non-savings income) |
| SavingsTax.ProvisionalIsCascade | src/services/SavingsTaxService.ts:50-62 | with a non-negative tracker, the provisional split equals the general cascade tagged `Savings`, although it consults the tracker without a guard |
| SavingsTax.AllowanceValues | src/services/SavingsTaxService.ts:65-70 | the allowance is one of 1,000 / 500 / 0 and never grows as the highest rate reached grows |
| SavingsTax.AllowanceChosen | src/services/SavingsTaxService.ts:17-70 | the allowance picked is the one for the higher of the rate the general lines reached and the rate the savings themselves reach |
| SavingsTax.CarveBackKeepsAmounts | src/services/SavingsTaxService.ts:72-95 | carving back the allowance keeps the amount in every band and overall |
| SavingsTax.CarveBackCarves | src/services/SavingsTaxService.ts:72-95 | the carve-back moves exactly min(allowance, pending total) to 0% |
| SavingsTax.CarveBackStopsEarly | src/services/SavingsTaxService.ts:72-95 | once the allowance fits inside the first k pending lines, every later line is taxed in full and unchanged |
| SavingsTax.CarveBackLowestFirst | src/services/SavingsTaxService.ts:72-95 | a later line gets a 0% slice only after every earlier line has been carved out whole |
| SavingsTax.SavingsShape | src/services/SavingsTaxService.ts:6-98 | every savings line is positive, priced amount × rate, and tagged `Savings` |
| SavingsTax.SavingsConserves | src/services/SavingsTaxService.ts:6-98 | the lines hold exactly the savings income; the shared tracker is charged exactly the basic lines and never overdrawn; the higher band holds at most 87,440 |
| SavingsTax.SavingsStarting | src/services/SavingsTaxService.ts:20-34 | a starting-rate line appears iff there are savings and non-savings income is below the allowance, and it holds the whole slice |
| SavingsTax.SavingsNilRated | src/services/SavingsTaxService.ts:64-95 | the 0% lines hold the starting slice plus the allowance for the highest rate reached, capped at the savings above the slice |
| SavingsTax.SavingsRatesWithin | src/services/SavingsTaxService.ts:6-98 | no savings line is rated below 0 or above 45% |
| SavingsTax.SavingsStartingRateExample | src/services/SavingsTaxService.test.ts:6-44 | 10,000 of interest beside 2,000 of non-savings income gives a 5,000 starting line, 1,000 at 0% and 4,000 at 20%: tax 800 |
| SavingsTax.SavingsHigherRateExample | src/services/SavingsTaxService.test.ts:46-90 | 10,000 of interest with 9,470 of band left reaches 40%, so 500 is at 0%, 8,970 at 20% and 530 at 40%: tax 2,006 |
| DividendTax.CalculateDividendTax | src/services/DividendTaxService.ts:6-67 | nothing for dividends ≤ 0; otherwise the first line is the 0% allowance line of min(dividends, 500) |
| DividendTax.DividendSplit | src/services/DividendTaxService.ts:12-22 | the result is the allowance line followed by the cascade of the rest at dividend rates |
| DividendTax.DividendShape | src/services/DividendTaxService.ts:6-67 | the lines are positive, priced and tagged `Dividends`; after the allowance line they are the cascade's bands at dividend rates; a basic line appears iff dividends exceed 500 while band remains |
| DividendTax.DividendConserves | src/services/DividendTaxService.ts:6-67 | the lines hold exactly the dividends; only the basic line draws on the tracker, and the allowance does not |
| DividendTax.DividendRatesWithin | src/services/DividendTaxService.ts:6-67 | no dividend line is rated above 39.35% |
| DividendTax.DividendTaxSchedule | src/services/DividendTaxService.ts:24-65 | the tax is the marginal schedule at 8.75 / 33.75 / 39.35% applied to the dividends above the allowance |
| DividendTax.DividendsTenThousand | src/services/DividendTaxService.test.ts:6-36 | 10,000 with a full band gives 500 at 0% and 9,500 at 8.75%: tax 831.25 |
| DividendTax.DividendsFiftyThousandNoBasicBand | src/services/DividendTaxService.test.ts:38-67 | 50,000 with no band left gives 500 at 0% and 49,500 at 33.75% |
| DividendTax.DividendsTwoHundredThousandNoBasicBand | src/services/DividendTaxService.test.ts:68-100 | 200,000 with no band left gives 500 at 0%, 87,440 higher and 112,060 additional |
| TaxCalculation.CalculateIncomeBreakdown | src/services/TaxCalculationService.ts:72-78 | the three categories plus other income make up total income; savings and dividends are copied through |
| TaxCalculation.PersonalAllowanceBounds | src/services/TaxCalculationService.ts:80-86 | the allowance lies in [0, 12,570]; it is the full amount up to 100,000; it is zero exactly from 125,140 |
| TaxCalculation.PersonalAllowanceTaper | src/services/TaxCalculationService.ts:80-86 | inside the taper window the allowance is whole pounds and exceeds the exact taper 12,570 − (ANI − 100,000)/2 by less than £1 |
| TaxCalculation.PersonalAllowanceAntitone | src/services/TaxCalculationService.ts:80-86 | more adjusted net income never gives a larger allowance |
| TaxCalculation.AfterGeneralAmounts | src/services/TaxCalculationService.ts:47-54 | after any general allocation, the savings lines hold exactly the savings and the dividend lines exactly the dividends |
| TaxCalculation.AfterGeneralBasic | src/services/TaxCalculationService.ts:47-54 | the tracker passed on from general to savings to dividends ends at the band less every basic line, and stays non-negative |
| TaxCalculation.BandsAmounts | src/services/TaxCalculationService.ts:35-54 | the allowance comes off general income only: the general lines hold general income less the allowance, and savings and dividends are whole |
| TaxCalculation.BandsShareBasic | src/services/TaxCalculationService.ts:35-54 | the basic lines of all three categories together use exactly what the one tracker lost, never more than it held |
| TaxCalculation.BandsShape | src/services/TaxCalculationService.ts:43-54 | the itemised lines are positive and priced, rated at most 45%, and grouped general, then savings, then dividends |
| TaxCalculation.BandsTax | src/services/TaxCalculationService.ts:43-57 | the tax is the three categories' taxes together and at most 45% of the itemised amount |
| TaxCalculation.ReportRate | src/services/TaxCalculationService.ts:57-59 | the effective rate is total tax over total income, 0 without income, and lies in [0, 45%] |
| TaxCalculation.ReportTaxable | src/services/TaxCalculationService.ts:68 | taxable income never exceeds the itemised amount and equals it when general income covers the allowance |
| TaxCalculation.CalculateTaxAllocates | src/services/TaxCalculationService.ts:22-70 | for non-negative figures: the allowance is the tapered allowance for the adjusted net income and lies in [0, 12,570], the extended band is exactly 37,700 plus the direct pension contributions, each category's lines hold its income (general less the allowance), and all basic lines fit in the extended band |
| TaxCalculation.CalculateTaxTaxable | src/services/TaxCalculationService.ts:22-70 | taxable income ≤ itemised amount, equal when general income covers the allowance, strictly less when it does not and there are savings or dividends |
| TaxCalculation.CalculateTaxTotal | src/services/TaxCalculationService.ts:22-70 | total tax is the sum of the general, savings and dividend taxes, and lies between 0 and 45% of total income |
| TaxCalculation.CalculateTaxRate | src/services/TaxCalculationService.ts:22-70 | the effective rate lies between 0 and 45% |
| TaxCalculation.OtherIncomeOnlyThroughAllowance | src/services/TaxCalculationService.ts:22-78 | changing other income leaves the breakdown, the lines, the total tax and taxable income unchanged whenever the allowance stays the same |
| TaxCalculation.BasicRateTaxpayerExample | src/services/TaxCalculationService.test.ts:6-31 | salary 30,000 + rent 5,000 + interest 1,000 + dividends 500: full allowance, 22,430 at 20% (general tax 4,486), no savings or dividend tax |
| TaxCalculation.TaperedAllowanceExample | src/services/TaxCalculationService.test.ts:33-47 | a salary of 110,000 tapers the allowance to 7,570: positive but below 12,570 |
| TaxCalculation.AdditionalRateTaxpayerExample | src/services/TaxCalculationService.test.ts:49-72 | salary 150,000 + interest 5,000 + dividends 10,000: no allowance, band 37,700, total tax 58,909.25 |
| TaxCalculation.AdditionalRateTaxpayerTaxes | src/services/TaxCalculationService.test.ts:65-71 | general 53,703, savings 2,000, dividends 3,206.25: each category pays tax; its higher-band lines hold 101,940 together |
| TaxCalculation.PensionExtendedBandExample | src/services/TaxCalculationService.test.ts:74-93 | salary 110,270 with 60,000 contributions: full allowance, band 97,700, one 20% line, tax 19,540, no higher-band line |
| TaxCalculation.MixedIncomeExample | src/services/TaxCalculationService.test.ts:95-119 | rent 25,000 + interest 2,000 + dividends 20,000 with 5,000 contributions: band 42,700, total tax 4,392.25 |
| TaxCalculation.MixedIncomeTaxes | src/services/TaxCalculationService.test.ts:112-118 | general 2,486, savings 200, dividends 1,706.25: every category pays tax |
| Schema.AllNumbers | src/schema.ts:22-24 | the loop over required keys succeeds iff every listed property is a finite number |
| Schema.ParseVault | src/schema.ts:7-46 | any failure is the single "Invalid vault" error; on success the input object and the result (or no result, when `result` is null or missing) are returned as stored |
| Schema.ParseVaultAccepts | src/schema.ts:7-46 | accepted iff the data is an object whose `input` has the six finite figures and whose `result` is missing, null, or an object with four finite figures and an `incomeBreakdown` of three finite amounts |
| Schema.BreakdownChecked | src/schema.ts:33-41 | the `!income` test adds nothing: the three checks pass iff `incomeBreakdown` is an object holding three finite amounts |
| Schema.OtherIncomeUnchecked | src/schema.ts:13-24 | replacing `otherIncome` never changes whether the vault is accepted |
| Schema.TaxByBandUnchecked | src/schema.ts:26-43 | replacing `taxByBand` never changes whether the vault is accepted |
| Schema.SavedVaultLoads | src/schema.ts:7-46 | any input and result the application stores, whatever the band entries hold, is accepted and returned as stored |
| Schema.InfiniteSalaryRejected | src/schema.ts:3-5 | a salary that overflowed to infinity is rejected |
| Schema.ArrayInputRejected | src/schema.ts:21-24 | an array `input` passes the `typeof` test but is still rejected |
| Schema.EmptyVaultLoads | src/schema.ts:26-45 | the all-zero form with no result loads, with no result |

## Left out

- Encryption (`src/crypto.ts`), IndexedDB persistence, React UI, file import/export and the service worker are left out: they are foreign calls, I/O or presentation. The model starts from the decrypted JSON value.
- Floating point is left out. Money is exact `real`; the tests' `toBeCloseTo` tolerances are not part of any contract.
- Tax-year lookup (`getTaxConstants`) is left out, because its definition is not among the constants modelled. The rental allocator takes its rates as a `Rates` parameter. Everything else uses the 2025/26 constants, as the other services do.
- The orchestrator's private `getTotalIncome`/`getAdjustedNetIncome` (`src/services/TaxCalculationService.ts:88-101`) are textually identical to those in `src/models/TaxCalculationInput.ts`, so they are defined once, in `TaxInput`.
- The `rentalIncome` field of `IncomeBreakdown` is left out. It is declared in the result type, but `calculateIncomeBreakdown` never sets it.
- The dividend allocator tests `DividendAllowance > 0`, which is always true for the fixed constant, so the model always takes the allowance.
- The savings allocator's `generalTaxBands &&` null check is left out: a Dafny sequence cannot be null, and an empty sequence takes the same branch.
- `src/models/TaxBandResult.ts` is not part of this model. A line's fields (band, type, amount, rate, tax) are taken from how the services build them.
- Schema.ParseVault: property access on strings and arrays is modelled as giving `undefined`. None of the keys the validator reads names a built-in property of either. Functions, symbols and bigints are left out because `JSON.parse` cannot produce them.
- Schema.SavedVaultLoads: the band entries' stored form is an arbitrary JSON value, because the validator never reads it.
- TaxCalculation.CalculateTaxAllocates: requires non-negative figures. The engine does not validate its input and promises nothing for negative figures; `CalculateTax` itself is total.
- TaxCalculation.CalculateTaxTaxable: requires non-negative figures. The engine does not validate its input and promises nothing for negative figures; `CalculateTax` itself is total.
- TaxCalculation.CalculateTaxTotal: requires non-negative figures. The engine does not validate its input and promises nothing for negative figures; `CalculateTax` itself is total.
- TaxCalculation.CalculateTaxRate: requires non-negative figures. The engine does not validate its input and promises nothing for negative figures; `CalculateTax` itself is total.
- TaxCalculation.BandsShape states grouping by category, not a permutation, because the lines are not reordered: they are the concatenation of the three allocators' outputs.
- TaxConstants.LabelsDistinct: the label `"Rental"` of the `Rental` category is assumed. The rental allocator reads its category label from the tax-year lookup, which is not part of this model, and the constants file has no rental label.
