# Kazakhstan business-tax calculators, modelled in Dafny

The repository holds two variants of a calculator for one Kazakh taxpayer. Each variant is a Streamlit page.

The first variant, `app.py`:
- takes the entity type (individual, sole proprietor ИП, company ТОО, peasant farm КХ), whether there are employees, income, payroll and expenses, for a month or a year;
- offers the tax regimes open to that taxpayer, and above the annual ceiling withholds the simplified ones;
- calculates the selected regime's tax, the income left after it and the warnings;
- compares every offered regime against the selected one and reports a lower tax or a higher net income.

The second variant, `app2.py`:
- adds amortisation;
- computes seven payroll withholdings and contributions (ОПВ, ОСМС, ИПН, СО, ОСМС раб., Соцналог, ОС НС);
- adds their whole sum to the total tax of every regime except the self-employed one;
- returns an itemised table of the amounts in insertion order;
- filters the regimes by entity type only.

The four regimes are:
- `snr_individual`: simplified, 4% of income;
- `snr_ip_too_kh`: simplified, 4% of income;
- `general_ip`: 10% of profit, nothing on a loss;
- `general_too`: 20% of profit, nothing on a loss.

The project has three modules.

- `TaxRules` (`tax_rules.dfy`) holds what both variants share:
  - the ceilings: 1,300,000 a month and 2,500,000,000 a year;
  - the entity, period and regime types, and the regime mode keys;
  - the warning kinds and their order;
  - the entity eligibility table;
  - annualisation.
- `Calculator` (`calculator.dfy`) is `app.py`.
- `Calculator2` (`calculator2.dfy`) is `app2.py`.

In each of the two calculator modules:
- a reference function (`Assess`, `OfferedModes`, `PayrollLines`) states what a step computes;
- a method performs the step the way the program does — string tests, appends, dictionary assignments, loops — and is proved equal to its reference function;
- lemmas state the properties of the reference functions.

The rest of `main` is modelled as a `Run` method, with the interface widgets replaced by parameters:
- input gating;
- the eligibility list, and the stop when it is empty;
- annualisation;
- calculation;
- in `app.py`, the comparison.

Money amounts are exact `real`s, so rates such as 0.04 and 0.373 are exact. Warnings are tags that keep their order. The entity simplified regime's "Внимание!!!" texts carry `attention = true`. The detail table of `app2.py` is a sequence of (item, amount) pairs, with helpers for assignment (`Put`) and `dict.update` (`UpdateWith`), so that its insertion order is kept.

The model follows the code as written:
- `app2.py` counts employee withholdings in the total tax;
- `app2.py` has no annual-ceiling filter;
- neither variant ranks the regimes or names a single recommended one;
- there are no expense categories.

## Model

| member | source | states |
|---|---|---|
| TaxRules.RegimeOf | app.py:16-52 | a mode string selects a regime exactly when it is that regime's key; every other string selects none |
| TaxRules.KeyRoundTrip | app.py:16-43 | each regime's key dispatches back to that regime |
| TaxRules.SnrPrefixIffSimplified | app.py:103-104 | a mode key starts with "snr" exactly when it names one of the two simplified 4% regimes |
| TaxRules.FlooredProfitTaxNonNegative | app.py:36-40 | the general regimes' profit tax is never negative; it is 0 on a profit that is not positive, and between 0 and the profit otherwise |
| TaxRules.OrderedByMembers | app.py:17-22 | two warning lists in emission order with the same members are equal, so a warning list is fixed by which warnings fire |
| TaxRules.IndividualWarningsMeaning | app.py:17-22 | the self-employed warnings are exactly the ordered lists that hold the employee warning iff payroll > 0, the monthly warning iff income/12 > 1,300,000, the annual warning iff income > 2,500,000,000, and nothing else |
| TaxRules.EntityWarningsMeaning | app.py:27-30 | the entity simplified warnings are exactly the ordered lists that hold only the two prefixed ceiling warnings, each iff its ceiling is exceeded |
| TaxRules.LossWarningsMeaning | app.py:36-38 | the general-regime warnings are exactly the lists that hold at most one warning, the loss warning, present iff profit <= 0 |
| TaxRules.AnnualWarningImpliesMonthly | app.py:6-7 | since 2,500,000,000 exceeds 12 × 1,300,000, the annual-ceiling warning never fires without the monthly one |
| TaxRules.EntityModes | app.py:91-100 | the entity eligibility table; its meaning is stated by EntityModesWellFormed and EntityModesShape, and app2.py:123-132 applies the same table |
| TaxRules.EntityModesWellFormed | app.py:91-100 | every offered mode is a known regime, no mode is offered twice, and only the first offered mode has the "snr" prefix |
| TaxRules.EntityModesShape | app.py:91-100 | no entity gets both general regimes; only an individual with employees gets none; each regime is offered exactly to its entity types |
| TaxRules.Annualise | app.py:117-124 | monthly figures are multiplied by 12, annual ones kept (also app2.py:143-147); AnnualiseScalesTaxes and both AnnualTaxIsTwelveMonths lemmas state what follows for the taxes |
| TaxRules.AnnualiseScalesTaxes | app.py:117-124 | scaling the figures to a year commutes with the percentage-of-income tax and with the loss-floored profit tax |
| Calculator.Assess | app.py:10-52 | the reference calculation: the lemmas SimplifiedTaxIsFourPercent, GeneralTaxFloorsAtZero, TaxNonNegative, the two warning lemmas and NetIncomeByRegime state its tax, net income and warnings per regime |
| Calculator.CalculateTaxes | app.py:10-52 | the mode-test chain, with its reassignments and appends, returns exactly the reference outcome for every mode string, unknown ones included |
| Calculator.SimplifiedTaxIsFourPercent | app.py:23 | both simplified regimes charge 0.04 × income, whatever the payroll and expenses |
| Calculator.GeneralTaxFloorsAtZero | app.py:34-50 | a general regime's tax is >= 0; it is 0 with the loss warning when income − expenses − payroll <= 0; otherwise 10% or 20% of that profit; the loss warning is its only possible warning |
| Calculator.TaxNonNegative | app.py:10-52 | with non-negative income, no mode owes a negative tax |
| Calculator.SnrIndividualWarnings | app.py:17-22 | the self-employed regime's warnings fire exactly under their conditions, in order, and no others |
| Calculator.SnrIpTooKhWarnings | app.py:27-30 | the entity simplified regime raises only the two prefixed ceiling warnings and never the employee warning |
| Calculator.NetIncomeByRegime | app.py:12-52 | income after tax is 0.96 × income for the self-employed regime, 0.96 × income − payroll for the entity simplified regime, and income − expenses − payroll − tax for the general regimes; an unknown mode returns (0, income, no warnings) |
| Calculator.AnnualTaxIsTwelveMonths | app.py:117-127 | for every mode, the tax on twelve identical months is twelve times one month's tax |
| Calculator.MonthlyRetailExample | app.py:26-32 | 1,000,000 a month under the entity simplified regime is 12,000,000 a year; it owes 480,000, leaves 11,520,000 and raises no warning |
| Calculator.DropSimplified | app.py:104 | the filter keeps exactly the modes without the "snr" prefix, and never grows the list |
| Calculator.DropSimplifiedDistributes | app.py:104 | the filter works mode by mode and keeps the kept modes in their original order |
| Calculator.OfferedModes | app.py:91-104 | the reference list of offered modes: the entity table, filtered above the annual ceiling; OfferedModesByIncome states the resulting list per entity |
| Calculator.AvailableModes | app.py:91-104 | the appends and the income filter give exactly the reference list of offered modes |
| Calculator.OfferedModesByIncome | app.py:91-104 | above the annual ceiling a sole proprietor is offered only general_ip, a company only general_too, everyone else nothing; at or below it the entity table is unchanged |
| Calculator.NoticesMeaning | app.py:150-154 | a lower-tax notice names exactly the other modes whose tax is strictly below the selected tax; a higher-net notice names exactly those whose net income is strictly above the selected one |
| Calculator.TabulateModes | app.py:141-144 | the comparison loop gives, for every offered mode in order, that mode's reference tax and income after tax |
| Calculator.CollectNotices | app.py:150-154 | the notice loop issues exactly the reference notices, row by row |
| Calculator.CompareModes | app.py:139-154 | with more than one offered mode, the comparison table has one reference row per mode and the notices follow it; otherwise there is no comparison |
| Calculator.Run | app.py:83-154 | there is no result exactly when no mode is offered; otherwise the outcome is the reference calculation on the annualised, gated figures, with the comparison rows and notices for those figures |
| Calculator2.Put | app2.py:15-24 | dictionary assignment `d[k] = v`; PutGet, PutOther and PutNewKey state that the key reads back its amount, other keys keep theirs, and a new key is appended |
| Calculator2.PutGet | app2.py:15-24 | after assigning a key, the table holds the assigned amount under it |
| Calculator2.PutOther | app2.py:15-24 | assigning one key leaves the amount under every other key unchanged |
| Calculator2.PutNewKey | app2.py:15-24 | assigning a key no entry holds appends it at the end of the table |
| Calculator2.UpdateWithNewKeys | app2.py:37 | dict.update with new, distinct keys appends the entries in their order |
| Calculator2.UpdateWith | app2.py:37 | `dict.update`, assigning each entry in turn; UpdateWithNewKeys states that fresh distinct keys are appended in order |
| Calculator2.SumValues | app2.py:26 | `sum(d.values())`; SumValuesAppend and PayrollTotal state its value |
| Calculator2.SumValuesAppend | app2.py:26 | the sum of a table's values adds up over concatenation |
| Calculator2.PayrollLinesShape | app2.py:15-24 | the payroll table has the seven items in the program's order, each once |
| Calculator2.PayrollIntoEmptyTable | app2.py:32-37 | an empty table updated with the payroll deductions holds just those seven lines |
| Calculator2.RegimeLineAppends | app2.py:51-78 | assigning a regime's tax line into the payroll table adds it as the eighth line |
| Calculator2.PayrollLines | app2.py:15-24 | the seven payroll lines in insertion order; PayrollLinesShape, PayrollTotal and PayrollSign state their keys, sums and signs |
| Calculator2.CalculateDeductions | app2.py:10-27 | filling the table key by key gives ОПВ 0.10 s, ОСМС 0.02 s, ИПН 0.10 × (s − ОПВ − ОСМС) = 0.088 s, СО 0.035 s, ОСМС раб. 0.03 s, Соцналог 0.095 s and ОС НС 0.005 s, and the total is the sum of all seven |
| Calculator2.PayrollTotal | app2.py:15-26 | the employee withholdings sum to 0.208 s, the employer contributions to 0.165 s, and the total to 0.373 s |
| Calculator2.PayrollSign | app2.py:15-26 | with no payroll every line and the total are 0; with non-negative payroll every line and the total are >= 0 |
| Calculator2.PayrollExample | app2.py:15-26 | a payroll of 1,000,000 has 208,000 withheld and 373,000 in all |
| Calculator2.Assess | app2.py:30-85 | the reference calculation: RegimeTaxByRegime, TotalTaxByRegime, AfterTaxIncomeIdentity, DetailsShape and the warning lemmas state its total tax, net income, table and warnings |
| Calculator2.CalculateTaxes | app2.py:30-85 | the update, the mode-test chain, the key assignment and the appends give exactly the reference outcome for every mode string: total tax, income after tax, table and warnings |
| Calculator2.RegimeTaxByRegime | app2.py:40-77 | a regime's own tax is 0.04 × income for the simplified regimes; for the general regimes it is >= 0, 0 when income − expenses − amortisation − payroll <= 0, and otherwise 10% or 20% of that base |
| Calculator2.TotalTaxByRegime | app2.py:50-82 | the total tax is 0.04 × income for snr_individual, 0.04 × income + 0.373 × payroll for snr_ip_too_kh, the floored profit tax + 0.373 × payroll for the general regimes, and 0 for an unknown mode |
| Calculator2.AfterTaxIncomeIdentity | app2.py:84 | for every mode, unknown ones included, income after tax is income − total tax − expenses − payroll − amortisation |
| Calculator2.DetailsShape | app2.py:36-82 | for a known mode the table is the seven payroll lines followed by one regime line with the regime's tax, all keys distinct; an unknown mode has total tax 0, an empty table and no warnings |
| Calculator2.SnrIndividualWarnings | app2.py:44-49 | the self-employed regime's warnings fire exactly under their conditions, in order |
| Calculator2.SnrIpTooKhWarnings | app2.py:55-58 | the entity simplified regime raises only the two prefixed ceiling warnings and never the employee warning |
| Calculator2.GeneralWarnings | app2.py:64-75 | a general regime raises at most the loss warning, exactly when the profit base is not positive |
| Calculator2.AnnualTaxIsTwelveMonths | app2.py:143-149 | for every mode, the total tax on twelve identical months, payroll included, is twelve times one month's |
| Calculator2.AvailableModes | app2.py:123-132 | the appends give exactly the entity eligibility table, with no income filter |
| Calculator2.Run | app2.py:114-149 | there is no result exactly when the entity table is empty; otherwise the result is the reference calculation on the gated figures, all four multiplied by 12 for a monthly period |

## Left out

- Streamlit is replaced by the parameters of the `Run` methods: `st.radio`, `number_input`, `selectbox`. Each `Run` models one press of the calculate button (`st.button`); the page before a press, which stops after the select box and computes nothing, is not modelled. Also left out are the display calls `metric`, `table`, `bar_chart`, `info`, `success`, `warning`, `error`, `set_page_config`. `st.stop()` becomes a `None` result when the list of offered modes is empty.
- The select box returns one of the offered modes, so the selected mode arrives as a parameter. `Run` does not require it to be offered, and the calculation accepts any string.
- pandas tables and the currency formatting of the amounts are presentation only.
- IEEE-754 rounding is not modelled: amounts are exact reals. The rates 0.04, 0.088 and 0.373, and the product 12 × monthly income, are therefore exact, where the program works in floats.
- The Russian warning and notice texts are tags. The exact strings and their emoji are not modelled.
- The detail-table keys are the tags of `Calculator2.Item`, not the Russian strings with their percentages. Those strings are all different, so the table keeps the same shape.
- Both `calculate_taxes` functions take an `entity` argument and never read it, so the model omits that argument.
- `app.py` compares each comparison row's description with the selected description. Each description belongs to exactly one mode key, so the model compares mode keys.
- The comparison table's rows in `app.py` keep the mode key where the program keeps its description, and they omit the discarded warnings of each alternative calculation.
- The bar charts of `app.py` and the detail table output of `app2.py` are not modelled.
- The form's `min_value=0.0` does not bound any input of the model. Only `Calculator.TaxNonNegative` and the sign clauses of `Calculator2.PayrollSign` assume a non-negative figure, and they say so.
