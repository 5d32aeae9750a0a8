/** The second calculator: the payroll withholdings and contributions, one
    regime's tax with amortisation and the payroll folded into the total, an
    itemised detail table, and the regimes offered by entity type alone. */
module Calculator2 {
  import opened TaxRules

  /** The lines of the detail table, under the program's own abbreviations. */
  datatype Item =
    | Opv           // ОПВ: employee pension contribution, 10% of payroll
    | Osms          // ОСМС: employee health insurance, 2% of payroll
    | Ipn           // ИПН: income tax withheld, 10% of payroll net of ОПВ and ОСМС
    | So            // СО: employer social payment, 3.5% of payroll
    | OsmsEmployer  // ОСМС раб.: employer health insurance, 3% of payroll
    | SocialTax     // Соцналог: social tax, 9.5% of payroll
    | OsNs          // ОС НС: occupational-injury insurance, 0.5% of payroll
    | SingleTax     // Единый налог: the 4% simplified tax
    | ProfitTax     // Налог на прибыль: the 10% profit tax of a sole proprietor
    | Kpn           // КПН: the 20% corporate profit tax

  /** A dictionary that remembers insertion order, as the detail table is shown in it. */
  type Details = seq<(Item, real)>

  function Keys(d: Details): seq<Item> {
    seq(|d|, k requires 0 <= k < |d| => d[k].0)
  }

  function Get(d: Details, key: Item): Option<real> {
    if d == [] then None
    else if d[0].0 == key then Some(d[0].1)
    else Get(d[1..], key)
  }

  /** Dictionary assignment. */
  function Put(d: Details, key: Item, amount: real): Details {
    if d == [] then [(key, amount)]
    else if d[0].0 == key then [(key, amount)] + d[1..]
    else [d[0]] + Put(d[1..], key, amount)
  }

  /** After an assignment the key holds the new amount. */
  lemma {:induction false} PutGet(d: Details, key: Item, amount: real)
    ensures Get(Put(d, key, amount), key) == Some(amount)
  {
    if d != [] && d[0].0 != key {
      PutGet(d[1..], key, amount);
    }
  }

  /** An assignment leaves every other key's amount as it was. */
  lemma {:induction false} PutOther(d: Details, key: Item, other: Item, amount: real)
    requires key != other
    ensures Get(Put(d, key, amount), other) == Get(d, other)
  {
    if d != [] && d[0].0 != key {
      PutOther(d[1..], key, other, amount);
    }
  }

  /** Assigning a key that no entry holds appends it at the end. */
  lemma {:induction false} PutNewKey(d: Details, key: Item, amount: real)
    requires forall k :: 0 <= k < |d| ==> d[k].0 != key
    ensures Put(d, key, amount) == d + [(key, amount)]
  {
    if d != [] {
      assert d[0].0 != key;
      PutNewKey(d[1..], key, amount);
      assert [d[0]] + (d[1..] + [(key, amount)]) == d + [(key, amount)];
    }
  }

  /** dict.update: assign every entry of `entries` in turn. */
  function UpdateWith(d: Details, entries: Details): Details
    decreases |entries|
  {
    if entries == [] then d
    else UpdateWith(Put(d, entries[0].0, entries[0].1), entries[1..])
  }

  predicate DistinctKeys(d: Details) {
    forall j, k :: 0 <= j < k < |d| ==> d[j].0 != d[k].0
  }

  /** Updating with entries whose keys are new and distinct appends them in order. */
  lemma {:induction false} UpdateWithNewKeys(d: Details, entries: Details)
    requires DistinctKeys(entries)
    requires forall k :: 0 <= k < |entries| ==> entries[k].0 !in Keys(d)
    ensures UpdateWith(d, entries) == d + entries
    decreases |entries|
  {
    if entries != [] {
      var e := entries[0];
      var rest := entries[1..];
      assert e.0 !in Keys(d);
      forall k | 0 <= k < |d| ensures d[k].0 != e.0 {
        assert Keys(d)[k] == d[k].0;
      }
      var d' := Put(d, e.0, e.1);
      PutNewKey(d, e.0, e.1);
      assert d' == d + [e];
      assert Keys(d') == Keys(d) + [e.0];
      forall k | 0 <= k < |rest|
        ensures rest[k].0 !in Keys(d')
      {
        assert rest[k] == entries[k + 1];
        assert rest[k].0 != e.0;
      }
      UpdateWithNewKeys(d', rest);
      assert d' + rest == d + entries;
    }
  }

  /** sum(d.values()). */
  function SumValues(d: Details): real {
    if d == [] then 0.0 else d[0].1 + SumValues(d[1..])
  }

  lemma {:induction false} SumValuesAppend(a: Details, b: Details)
    ensures SumValues(a + b) == SumValues(a) + SumValues(b)
  {
    if a == [] {
      assert a + b == b;
    } else {
      assert (a + b)[0] == a[0];
      assert (a + b)[1..] == a[1..] + b;
      SumValuesAppend(a[1..], b);
    }
  }

  /** The seven payroll items in the order the table lists them: three
      employee withholdings, then four employer contributions. */
  const PAYROLL_ITEMS: seq<Item> := [Opv, Osms, Ipn, So, OsmsEmployer, SocialTax, OsNs]

  /** Reference definition of the payroll lines: each item at its rate of gross
      payroll; the income tax, 10% of payroll net of ОПВ and ОСМС, is 8.8% of gross. */
  function PayrollLines(salaries: real): Details {
    [(Opv, 0.10 * salaries), (Osms, 0.02 * salaries), (Ipn, 0.088 * salaries),
     (So, 0.035 * salaries), (OsmsEmployer, 0.03 * salaries), (SocialTax, 0.095 * salaries),
     (OsNs, 0.005 * salaries)]
  }

  lemma PayrollLinesShape(salaries: real)
    ensures Keys(PayrollLines(salaries)) == PAYROLL_ITEMS
    ensures DistinctKeys(PayrollLines(salaries))
  {
  }

  /** Updating an empty table with the payroll lines gives just those lines. */
  lemma PayrollIntoEmptyTable(salaries: real)
    ensures UpdateWith([], PayrollLines(salaries)) == PayrollLines(salaries)
  {
    PayrollLinesShape(salaries);
    UpdateWithNewKeys([], PayrollLines(salaries));
  }

  /** Assigning a regime's line into the payroll table appends it after the seven payroll lines. */
  lemma RegimeLineAppends(salaries: real, r: Regime, tax: real)
    ensures Put(PayrollLines(salaries), RegimeItem(r), tax) == PayrollLines(salaries) + [(RegimeItem(r), tax)]
  {
    PayrollLinesShape(salaries);
    PutNewKey(PayrollLines(salaries), RegimeItem(r), tax);
  }

  /** The deductions as the program fills them in, key by key, then summed. */
  method CalculateDeductions(salaries: real) returns (deductions: Details, total: real)
    ensures deductions == PayrollLines(salaries)
    ensures total == SumValues(deductions)
  {
    deductions := [];
    // withheld from the employee
    deductions := Put(deductions, Opv, salaries * 0.10);
    assert deductions == [(Opv, salaries * 0.10)];
    PutNewKey(deductions, Osms, salaries * 0.02);
    PutGet(deductions, Osms, salaries * 0.02);
    deductions := Put(deductions, Osms, salaries * 0.02);
    assert deductions == [(Opv, salaries * 0.10), (Osms, salaries * 0.02)];
    var taxableBase := salaries - Get(deductions, Opv).value - Get(deductions, Osms).value;
    PutNewKey(deductions, Ipn, taxableBase * 0.10);
    deductions := Put(deductions, Ipn, taxableBase * 0.10);
    assert deductions == [(Opv, salaries * 0.10), (Osms, salaries * 0.02), (Ipn, taxableBase * 0.10)];
    // paid by the employer
    PutNewKey(deductions, So, salaries * 0.035);
    deductions := Put(deductions, So, salaries * 0.035);
    assert deductions == [(Opv, salaries * 0.10), (Osms, salaries * 0.02), (Ipn, taxableBase * 0.10), (So, salaries * 0.035)];
    PutNewKey(deductions, OsmsEmployer, salaries * 0.03);
    deductions := Put(deductions, OsmsEmployer, salaries * 0.03);
    assert deductions == [(Opv, salaries * 0.10), (Osms, salaries * 0.02), (Ipn, taxableBase * 0.10), (So, salaries * 0.035), (OsmsEmployer, salaries * 0.03)];
    PutNewKey(deductions, SocialTax, salaries * 0.095);
    deductions := Put(deductions, SocialTax, salaries * 0.095);
    assert deductions == [(Opv, salaries * 0.10), (Osms, salaries * 0.02), (Ipn, taxableBase * 0.10), (So, salaries * 0.035), (OsmsEmployer, salaries * 0.03), (SocialTax, salaries * 0.095)];
    PutNewKey(deductions, OsNs, salaries * 0.005);
    deductions := Put(deductions, OsNs, salaries * 0.005);
    assert deductions == [(Opv, salaries * 0.10), (Osms, salaries * 0.02), (Ipn, taxableBase * 0.10), (So, salaries * 0.035), (OsmsEmployer, salaries * 0.03), (SocialTax, salaries * 0.095), (OsNs, salaries * 0.005)];
    total := SumValues(deductions);
  }

  /** The payroll total is 37.3% of gross: 20.8% withheld from employees and
      16.5% contributed by the employer, all of it counted. */
  lemma {:induction false} PayrollTotal(salaries: real)
    ensures SumValues(PayrollLines(salaries)[..3]) == 0.208 * salaries
    ensures SumValues(PayrollLines(salaries)[3..]) == 0.165 * salaries
    ensures SumValues(PayrollLines(salaries)) == 0.373 * salaries
  {
    var lines := PayrollLines(salaries);
    var w, c := lines[..3], lines[3..];
    assert SumValues(w[2..]) == w[2].1 + SumValues(w[3..]);
    assert SumValues(w[1..]) == w[1].1 + SumValues(w[1..][1..]);
    assert SumValues(w) == w[0].1 + w[1].1 + w[2].1;
    assert SumValues(c[3..]) == c[3].1 + SumValues(c[4..]);
    assert SumValues(c[2..]) == c[2].1 + SumValues(c[2..][1..]);
    assert SumValues(c[1..]) == c[1].1 + SumValues(c[1..][1..]);
    assert SumValues(c) == c[0].1 + c[1].1 + c[2].1 + c[3].1;
    SumValuesAppend(w, c);
    assert w + c == lines;
  }

  /** No payroll, no deductions; a non-negative payroll gives non-negative lines. */
  lemma PayrollSign(salaries: real)
    ensures salaries == 0.0 ==> forall k :: 0 <= k < 7 ==> PayrollLines(salaries)[k].1 == 0.0
    ensures salaries >= 0.0 ==> forall k :: 0 <= k < 7 ==> PayrollLines(salaries)[k].1 >= 0.0
    ensures salaries >= 0.0 ==> SumValues(PayrollLines(salaries)) >= 0.0
    ensures salaries == 0.0 ==> SumValues(PayrollLines(salaries)) == 0.0
  {
    PayrollTotal(salaries);
  }

  /** Gross payroll of 1,000,000: 208,000 withheld from employees, 373,000 in all. */
  lemma PayrollExample()
    ensures SumValues(PayrollLines(1000000.0)[..3]) == 208000.0
    ensures SumValues(PayrollLines(1000000.0)) == 373000.0
  {
    PayrollTotal(1000000.0);
  }

  /** What calculate_taxes returns: the total tax, the income left, the detail table and the warnings. */
  datatype Outcome = Outcome(totalTax: real, afterTaxIncome: real, details: Details, warnings: seq<Warning>)

  /** The detail-table line that holds each regime's own tax. */
  function RegimeItem(r: Regime): Item {
    match r
    case SnrIndividual => SingleTax
    case SnrIpTooKh => SingleTax
    case GeneralIp => ProfitTax
    case GeneralToo => Kpn
  }

  /** Income less expenses, amortisation and payroll: what the profit tax applies to. */
  function ProfitBase(incomeYear: real, salariesYear: real, expensesYear: real, amortization: real): real {
    incomeYear - expensesYear - amortization - salariesYear
  }

  /** A regime's own tax: 4% of income, or the loss-floored profit tax. */
  function RegimeTax(r: Regime, incomeYear: real, salariesYear: real, expensesYear: real, amortization: real): real {
    if IsSimplified(r) then Rate(r) * incomeYear
    else FlooredProfitTax(Rate(r), ProfitBase(incomeYear, salariesYear, expensesYear, amortization))
  }

  /** Reference definition of one calculation. Every known regime except the
      self-employed one adds the whole payroll sum to its own tax; an unknown
      mode owes nothing and has an empty table. */
  function Assess(mode: string, incomeYear: real, salariesYear: real, expensesYear: real, amortization: real): Outcome {
    match RegimeOf(mode)
    case None =>
      Outcome(0.0, incomeYear - 0.0 - expensesYear - salariesYear - amortization, [], [])
    case Some(r) =>
      var tax := RegimeTax(r, incomeYear, salariesYear, expensesYear, amortization);
      var totalTax := if r == SnrIndividual then tax else tax + SumValues(PayrollLines(salariesYear));
      Outcome(totalTax, incomeYear - totalTax - expensesYear - salariesYear - amortization,
              PayrollLines(salariesYear) + [(RegimeItem(r), tax)],
              RegimeWarnings(r, incomeYear, salariesYear, expensesYear, amortization))
  }

  /** The warnings each regime raises. */
  function RegimeWarnings(r: Regime, incomeYear: real, salariesYear: real, expensesYear: real, amortization: real): seq<Warning> {
    match r
    case SnrIndividual => IndividualWarnings(incomeYear, salariesYear)
    case SnrIpTooKh => CeilingWarnings(incomeYear, true)
    case _ => LossWarnings(ProfitBase(incomeYear, salariesYear, expensesYear, amortization))
  }

  /** The calculation as the program performs it: the table starts as the
      payroll deductions, one regime line is assigned into it, warnings are appended. */
  method CalculateTaxes(mode: string, incomeYear: real, salariesYear: real, expensesYear: real, amortization: real)
    returns (totalTax: real, afterTaxIncome: real, details: Details, warnings: seq<Warning>)
    ensures Outcome(totalTax, afterTaxIncome, details, warnings)
            == Assess(mode, incomeYear, salariesYear, expensesYear, amortization)
  {
    details := [];
    warnings := [];

    var salaryDeductions, salaryTotal := CalculateDeductions(salariesYear);
    PayrollIntoEmptyTable(salariesYear);
    details := UpdateWith(details, salaryDeductions);

    var profitBase := incomeYear - expensesYear - amortization - salariesYear;

    if mode == "snr_individual" {
      if salariesYear > 0.0 {
        warnings := warnings + [EmployeesPresent];
      }
      if incomeYear / 12.0 > LIMIT_SNR_MONTH {
        warnings := warnings + [MonthlyLimit(false)];
      }
      if incomeYear > LIMIT_SNR_YEAR {
        warnings := warnings + [AnnualLimit(false)];
      }
      var tax := incomeYear * 0.04;
      RegimeLineAppends(salariesYear, SnrIndividual, tax);
      details := Put(details, SingleTax, tax);
      totalTax := tax;
      assert RegimeOf(mode) == Some(SnrIndividual);
      assert warnings == IndividualWarnings(incomeYear, salariesYear);
    } else if mode == "snr_ip_too_kh" {
      if incomeYear / 12.0 > LIMIT_SNR_MONTH {
        warnings := warnings + [MonthlyLimit(true)];
      }
      if incomeYear > LIMIT_SNR_YEAR {
        warnings := warnings + [AnnualLimit(true)];
      }
      var tax := incomeYear * 0.04;
      RegimeLineAppends(salariesYear, SnrIpTooKh, tax);
      details := Put(details, SingleTax, tax);
      totalTax := tax + salaryTotal;
      assert RegimeOf(mode) == Some(SnrIpTooKh);
      assert warnings == CeilingWarnings(incomeYear, true);
    } else if mode == "general_ip" {
      var profitTax;
      if profitBase <= 0.0 {
        profitTax := 0.0;
        warnings := warnings + [Loss];
      } else {
        profitTax := profitBase * 0.10;
      }
      RegimeLineAppends(salariesYear, GeneralIp, profitTax);
      details := Put(details, ProfitTax, profitTax);
      totalTax := profitTax + salaryTotal;
    } else if mode == "general_too" {
      var profitTax;
      if profitBase <= 0.0 {
        profitTax := 0.0;
        warnings := warnings + [Loss];
      } else {
        profitTax := profitBase * 0.20;
      }
      RegimeLineAppends(salariesYear, GeneralToo, profitTax);
      details := Put(details, Kpn, profitTax);
      totalTax := profitTax + salaryTotal;
    } else {
      totalTax, details := 0.0, [];
    }

    afterTaxIncome := incomeYear - totalTax - expensesYear - salariesYear - amortization;
  }

  /** The simplified regimes owe 4% of income; the general regimes owe their rate
      on a positive profit base and nothing on a loss, never a negative amount. */
  lemma RegimeTaxByRegime(r: Regime, incomeYear: real, salariesYear: real, expensesYear: real, amortization: real)
    ensures var tax := RegimeTax(r, incomeYear, salariesYear, expensesYear, amortization);
            var base := ProfitBase(incomeYear, salariesYear, expensesYear, amortization);
            && (IsSimplified(r) ==> tax == 0.04 * incomeYear)
            && (!IsSimplified(r) ==> tax >= 0.0 && (base <= 0.0 ==> tax == 0.0))
            && (r == GeneralIp && base > 0.0 ==> tax == 0.10 * base)
            && (r == GeneralToo && base > 0.0 ==> tax == 0.20 * base)
  {
  }

  /** The total per mode: the self-employed regime pays only its 4%; every other
      known regime adds 37.3% of payroll; an unknown mode owes nothing. */
  lemma TotalTaxByRegime(mode: string, incomeYear: real, salariesYear: real, expensesYear: real, amortization: real)
    ensures var total := Assess(mode, incomeYear, salariesYear, expensesYear, amortization).totalTax;
            var base := ProfitBase(incomeYear, salariesYear, expensesYear, amortization);
            match RegimeOf(mode)
            case None => total == 0.0
            case Some(SnrIndividual) => total == 0.04 * incomeYear
            case Some(SnrIpTooKh) => total == 0.04 * incomeYear + 0.373 * salariesYear
            case Some(GeneralIp) => total == FlooredProfitTax(0.10, base) + 0.373 * salariesYear
            case Some(GeneralToo) => total == FlooredProfitTax(0.20, base) + 0.373 * salariesYear
  {
    PayrollTotal(salariesYear);
  }

  /** For every mode, known or not, the income left is income less the total tax and all costs. */
  lemma AfterTaxIncomeIdentity(mode: string, incomeYear: real, salariesYear: real, expensesYear: real, amortization: real)
    ensures var o := Assess(mode, incomeYear, salariesYear, expensesYear, amortization);
            o.afterTaxIncome == incomeYear - o.totalTax - expensesYear - salariesYear - amortization
  {
  }

  /** A known mode's table holds the seven payroll lines and then exactly one
      regime line carrying the regime's tax; an unknown mode has no table, no
      warnings and no tax. */
  lemma DetailsShape(mode: string, incomeYear: real, salariesYear: real, expensesYear: real, amortization: real)
    ensures var o := Assess(mode, incomeYear, salariesYear, expensesYear, amortization);
            match RegimeOf(mode)
            case None => o.totalTax == 0.0 && o.details == [] && o.warnings == []
            case Some(r) =>
              && |o.details| == 8
              && o.details[..7] == PayrollLines(salariesYear)
              && Keys(o.details) == PAYROLL_ITEMS + [RegimeItem(r)]
              && DistinctKeys(o.details)
              && Get(o.details, RegimeItem(r)) == Some(RegimeTax(r, incomeYear, salariesYear, expensesYear, amortization))
  {
    match RegimeOf(mode)
    case None =>
    case Some(r) =>
      var lines := PayrollLines(salariesYear);
      var tax := RegimeTax(r, incomeYear, salariesYear, expensesYear, amortization);
      PayrollLinesShape(salariesYear);
      RegimeLineAppends(salariesYear, r, tax);
      PutGet(lines, RegimeItem(r), tax);
      var details := lines + [(RegimeItem(r), tax)];
      assert details[..7] == lines;
      assert Keys(details) == Keys(lines) + [RegimeItem(r)];
  }

  /** The self-employed regime warns about employees and each ceiling exactly under its condition, in order. */
  lemma SnrIndividualWarnings(incomeYear: real, salariesYear: real, expensesYear: real, amortization: real)
    ensures IndividualWarningsOk(Assess(Key(SnrIndividual), incomeYear, salariesYear, expensesYear, amortization).warnings,
                                 incomeYear, salariesYear)
  {
  }

  /** The entity simplified regime raises only the two prefixed ceiling warnings. */
  lemma SnrIpTooKhWarnings(incomeYear: real, salariesYear: real, expensesYear: real, amortization: real)
    ensures var ws := Assess(Key(SnrIpTooKh), incomeYear, salariesYear, expensesYear, amortization).warnings;
            EntityWarningsOk(ws, incomeYear) && EmployeesPresent !in ws
  {
  }

  /** A general regime raises at most the loss warning, exactly when the profit base is not positive. */
  lemma GeneralWarnings(mode: string, incomeYear: real, salariesYear: real, expensesYear: real, amortization: real)
    requires RegimeOf(mode) == Some(GeneralIp) || RegimeOf(mode) == Some(GeneralToo)
    ensures GeneralWarningsOk(Assess(mode, incomeYear, salariesYear, expensesYear, amortization).warnings,
                              ProfitBase(incomeYear, salariesYear, expensesYear, amortization))
  {
  }

  /** The total tax of twelve identical months is twelve times one month's. */
  lemma AnnualTaxIsTwelveMonths(mode: string, income: real, salaries: real, expenses: real, amortization: real)
    ensures Assess(mode, Annualise(income, Month), Annualise(salaries, Month),
                   Annualise(expenses, Month), Annualise(amortization, Month)).totalTax
            == Annualise(Assess(mode, income, salaries, expenses, amortization).totalTax, Month)
  {
    PayrollTotal(salaries);
    PayrollTotal(Annualise(salaries, Month));
    match RegimeOf(mode)
    case None =>
    case Some(r) =>
      if !IsSimplified(r) {
        var base := ProfitBase(income, salaries, expenses, amortization);
        AnnualiseScalesTaxes(Rate(r), income, base, Month);
        assert ProfitBase(Annualise(income, Month), Annualise(salaries, Month),
                          Annualise(expenses, Month), Annualise(amortization, Month))
               == Annualise(base, Month);
      }
  }

  /** The offered modes as the program collects them: the entity table, with no income filter. */
  method AvailableModes(entity: Entity, hasEmployees: bool) returns (modes: seq<string>)
    ensures modes == EntityModes(entity, hasEmployees)
  {
    modes := [];
    if entity == Individual {
      if !hasEmployees {
        modes := modes + ["snr_individual"];
      }
    } else if entity in {Ip, Too, Kh} {
      modes := modes + ["snr_ip_too_kh"];
      if entity == Ip {
        modes := modes + ["general_ip"];
      } else if entity == Too {
        modes := modes + ["general_too"];
      }
    }
  }

  /** One request: collect the offered modes (stop when there are none),
      scale monthly figures to a year in place, and calculate the selected mode. */
  method Run(entity: Entity, hasEmployees: bool, income: real, salaries: real, expenses: real,
             amortization: real, period: Period, selected: string)
    returns (result: Option<Outcome>)
    ensures result.None? <==> EntityModes(entity, hasEmployees) == []
    ensures result.Some? ==>
              result.value == Assess(selected, Annualise(income, period),
                                     Annualise(EnteredCost(entity, hasEmployees, salaries), period),
                                     Annualise(EnteredCost(entity, hasEmployees, expenses), period),
                                     Annualise(EnteredCost(entity, hasEmployees, amortization), period))
  {
    var incomeV, salariesV, expensesV, amortizationV := income, 0.0, 0.0, 0.0;
    if entity in {Ip, Too} || hasEmployees {
      salariesV, expensesV, amortizationV := salaries, expenses, amortization;
    }
    var modes := AvailableModes(entity, hasEmployees);
    if modes == [] {
      return None;
    }
    if period == Month {
      incomeV := incomeV * 12.0;
      salariesV := salariesV * 12.0;
      expensesV := expensesV * 12.0;
      amortizationV := amortizationV * 12.0;
    }
    assert incomeV == Annualise(income, period);
    assert salariesV == Annualise(EnteredCost(entity, hasEmployees, salaries), period);
    assert expensesV == Annualise(EnteredCost(entity, hasEmployees, expenses), period);
    assert amortizationV == Annualise(EnteredCost(entity, hasEmployees, amortization), period);
    var totalTax, afterTaxIncome, details, warnings := CalculateTaxes(selected, incomeV, salariesV, expensesV, amortizationV);
    result := Some(Outcome(totalTax, afterTaxIncome, details, warnings));
  }
}
