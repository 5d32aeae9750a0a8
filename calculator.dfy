/** The first calculator: one regime's tax and net income on annual figures,
    the offered regimes with the annual-ceiling filter, and the comparison of
    every offered regime against the selected one. */
module Calculator {
  import opened TaxRules

  /** The tax due, the income left after it, and the warnings raised. */
  datatype Outcome = Outcome(tax: real, afterTaxIncome: real, warnings: seq<Warning>)

  /** Reference definition of one calculation, dispatching on the regime the
      mode names. An unknown mode owes nothing and keeps all its income. */
  function Assess(mode: string, incomeYear: real, salariesYear: real, expensesYear: real): Outcome {
    match RegimeOf(mode)
    case None => Outcome(0.0, incomeYear, [])
    case Some(r) =>
      if IsSimplified(r) then
        var tax := Rate(r) * incomeYear;
        if r == SnrIndividual then Outcome(tax, incomeYear - tax, IndividualWarnings(incomeYear, salariesYear))
        else Outcome(tax, incomeYear - tax - salariesYear, CeilingWarnings(incomeYear, true))
      else
        var profit := incomeYear - expensesYear - salariesYear;
        var tax := FlooredProfitTax(Rate(r), profit);
        Outcome(tax, profit - tax, LossWarnings(profit))
  }

  /** The calculation as the program performs it: a chain of mode tests that
      reassigns the tax and the income after tax and appends warnings. */
  method CalculateTaxes(mode: string, incomeYear: real, salariesYear: real, expensesYear: real)
    returns (tax: real, afterTaxIncome: real, warnings: seq<Warning>)
    ensures Outcome(tax, afterTaxIncome, warnings) == Assess(mode, incomeYear, salariesYear, expensesYear)
  {
    tax := 0.0;
    warnings := [];
    afterTaxIncome := incomeYear;

    if mode == "snr_individual" {
      if salariesYear > 0.0 {
        warnings := warnings + [EmployeesPresent];
      }
      if incomeYear / 12.0 > LIMIT_SNR_MONTH {
        warnings := warnings + [MonthlyLimit(false)];
      }
      if incomeYear > LIMIT_SNR_YEAR {
        warnings := warnings + [AnnualLimit(false)];
      }
      tax := incomeYear * 0.04;
      afterTaxIncome := incomeYear - tax;
    } else if mode == "snr_ip_too_kh" {
      if incomeYear / 12.0 > LIMIT_SNR_MONTH {
        warnings := warnings + [MonthlyLimit(true)];
      }
      if incomeYear > LIMIT_SNR_YEAR {
        warnings := warnings + [AnnualLimit(true)];
      }
      tax := incomeYear * 0.04;
      afterTaxIncome := incomeYear - tax - salariesYear;
    } else if mode == "general_ip" {
      var profit := incomeYear - expensesYear - salariesYear;
      if profit <= 0.0 {
        tax := 0.0;
        warnings := warnings + [Loss];
      } else {
        tax := profit * 0.10;
      }
      afterTaxIncome := incomeYear - expensesYear - salariesYear - tax;
    } else if mode == "general_too" {
      var profit := incomeYear - expensesYear - salariesYear;
      if profit <= 0.0 {
        tax := 0.0;
        warnings := warnings + [Loss];
      } else {
        tax := profit * 0.20;
      }
      afterTaxIncome := incomeYear - expensesYear - salariesYear - tax;
    }
  }

  /** Both simplified regimes take 4% of income, whatever the payroll and expenses. */
  lemma SimplifiedTaxIsFourPercent(mode: string, incomeYear: real, salariesYear: real, expensesYear: real,
                                   otherSalaries: real, otherExpenses: real)
    requires RegimeOf(mode) == Some(SnrIndividual) || RegimeOf(mode) == Some(SnrIpTooKh)
    ensures Assess(mode, incomeYear, salariesYear, expensesYear).tax == 0.04 * incomeYear
    ensures Assess(mode, incomeYear, salariesYear, expensesYear).tax
            == Assess(mode, incomeYear, otherSalaries, otherExpenses).tax
  {
  }

  /** A general regime taxes positive profit at its rate and nothing otherwise,
      with the loss warning as its only possible warning; its tax is never negative. */
  lemma GeneralTaxFloorsAtZero(mode: string, incomeYear: real, salariesYear: real, expensesYear: real)
    requires RegimeOf(mode) == Some(GeneralIp) || RegimeOf(mode) == Some(GeneralToo)
    ensures var o := Assess(mode, incomeYear, salariesYear, expensesYear);
            var profit := incomeYear - expensesYear - salariesYear;
            && o.tax >= 0.0
            && (profit <= 0.0 ==> o.tax == 0.0)
            && (profit > 0.0 && mode == Key(GeneralIp) ==> o.tax == 0.10 * profit)
            && (profit > 0.0 && mode == Key(GeneralToo) ==> o.tax == 0.20 * profit)
            && GeneralWarningsOk(o.warnings, profit)
  {
  }

  /** With the non-negative income the input form guarantees, no mode owes a negative tax. */
  lemma TaxNonNegative(mode: string, incomeYear: real, salariesYear: real, expensesYear: real)
    requires incomeYear >= 0.0
    ensures Assess(mode, incomeYear, salariesYear, expensesYear).tax >= 0.0
  {
  }

  /** The self-employed regime warns about employees exactly when there is payroll,
      and about each ceiling exactly when income exceeds it, in that order. */
  lemma SnrIndividualWarnings(incomeYear: real, salariesYear: real, expensesYear: real)
    ensures IndividualWarningsOk(Assess(Key(SnrIndividual), incomeYear, salariesYear, expensesYear).warnings,
                                 incomeYear, salariesYear)
  {
  }

  /** The entity simplified regime raises only the two prefixed ceiling warnings, never the employee one. */
  lemma SnrIpTooKhWarnings(incomeYear: real, salariesYear: real, expensesYear: real)
    ensures var ws := Assess(Key(SnrIpTooKh), incomeYear, salariesYear, expensesYear).warnings;
            EntityWarningsOk(ws, incomeYear) && EmployeesPresent !in ws
  {
  }

  /** The income left after tax in each regime; an unknown mode changes nothing. */
  lemma NetIncomeByRegime(mode: string, incomeYear: real, salariesYear: real, expensesYear: real)
    ensures var o := Assess(mode, incomeYear, salariesYear, expensesYear);
            match RegimeOf(mode)
            case None => o == Outcome(0.0, incomeYear, [])
            case Some(SnrIndividual) => o.afterTaxIncome == 0.96 * incomeYear
            case Some(SnrIpTooKh) => o.afterTaxIncome == 0.96 * incomeYear - salariesYear
            case Some(_) => o.afterTaxIncome == incomeYear - expensesYear - salariesYear - o.tax
  {
  }

  /** Every regime's tax is linear in the figures: twelve months of identical
      figures owe twelve times one month's tax. */
  lemma AnnualTaxIsTwelveMonths(mode: string, income: real, salaries: real, expenses: real)
    ensures Assess(mode, Annualise(income, Month), Annualise(salaries, Month), Annualise(expenses, Month)).tax
            == Annualise(Assess(mode, income, salaries, expenses).tax, Month)
  {
  }

  /** A monthly income of 1,000,000 in the entity simplified regime is 12,000,000 a year and owes 480,000. */
  lemma MonthlyRetailExample()
    ensures Assess(Key(SnrIpTooKh), Annualise(1000000.0, Month), 0.0, 0.0)
            == Outcome(480000.0, 11520000.0, [])
  {
  }

  /** The annual-ceiling filter: drop every mode whose key starts with "snr". */
  function DropSimplified(modes: seq<string>): (kept: seq<string>)
    ensures forall m :: m in kept <==> m in modes && !HasSnrPrefix(m)
    ensures |kept| <= |modes|
  {
    if modes == [] then []
    else (if HasSnrPrefix(modes[0]) then [] else [modes[0]]) + DropSimplified(modes[1..])
  }

  /** The filter works mode by mode and keeps the survivors in their order. */
  lemma {:induction false} DropSimplifiedDistributes(a: seq<string>, b: seq<string>)
    ensures DropSimplified(a + b) == DropSimplified(a) + DropSimplified(b)
  {
    if a == [] {
      assert a + b == b;
    } else {
      assert (a + b)[1..] == a[1..] + b;
      DropSimplifiedDistributes(a[1..], b);
    }
  }

  /** Reference definition of the offered modes: the entity table, without the
      simplified regimes when the annualised income exceeds the annual ceiling. */
  function OfferedModes(entity: Entity, hasEmployees: bool, income: real, period: Period): seq<string> {
    var modes := EntityModes(entity, hasEmployees);
    if Annualise(income, period) > LIMIT_SNR_YEAR then DropSimplified(modes) else modes
  }

  /** The offered modes as the program collects them: appending to a list, then filtering it. */
  method AvailableModes(entity: Entity, hasEmployees: bool, income: real, period: Period)
    returns (modes: seq<string>)
    ensures modes == OfferedModes(entity, hasEmployees, income, period)
  {
    modes := [];
    if entity == Individual {
      if !hasEmployees {
        modes := modes + ["snr_individual"];
      }
    } else if entity in {Ip, Too, Kh} {
      modes := modes + ["snr_ip_too_kh"];
      if entity == Ip {
        modes := modes + ["general_ip"];
      } else if entity == Too {
        modes := modes + ["general_too"];
      }
    }
    if income * (if period == Month then 12.0 else 1.0) > LIMIT_SNR_YEAR {
      modes := DropSimplified(modes);
    }
  }

  /** Above the annual ceiling only a general regime remains, and only for a
      sole proprietor or a company; at or below it the entity table stands. */
  lemma OfferedModesByIncome(entity: Entity, hasEmployees: bool, income: real, period: Period)
    ensures Annualise(income, period) > LIMIT_SNR_YEAR ==>
              OfferedModes(entity, hasEmployees, income, period)
              == match entity
                 case Ip => [Key(GeneralIp)]
                 case Too => [Key(GeneralToo)]
                 case _ => []
    ensures Annualise(income, period) <= LIMIT_SNR_YEAR ==>
              OfferedModes(entity, hasEmployees, income, period) == EntityModes(entity, hasEmployees)
  {
    SnrPrefixIffSimplified(SnrIndividual);
    SnrPrefixIffSimplified(SnrIpTooKh);
    SnrPrefixIffSimplified(GeneralIp);
    SnrPrefixIffSimplified(GeneralToo);
    var modes := EntityModes(entity, hasEmployees);
    if |modes| == 2 {
      assert modes[1..][1..] == [];
    }
  }

  /** One line of the comparison table: a mode, its tax and its income after tax. */
  datatype Row = Row(mode: string, tax: real, net: real)

  /** The two recommendations the comparison can make about another mode. */
  datatype Notice =
    | LowerTax(mode: string, tax: real)  // the tax would have been lower
    | HigherNet(mode: string, net: real) // the income after tax would have been higher

  function RowOf(mode: string, incomeYear: real, salariesYear: real, expensesYear: real): Row {
    var o := Assess(mode, incomeYear, salariesYear, expensesYear);
    Row(mode, o.tax, o.afterTaxIncome)
  }

  /** The notices one row earns against the selected mode's tax and net income. */
  function RowNotices(row: Row, selected: string, tax: real, afterTaxIncome: real): seq<Notice> {
    (if row.mode != selected && row.tax < tax then [LowerTax(row.mode, row.tax)] else [])
    + (if row.mode != selected && row.net > afterTaxIncome then [HigherNet(row.mode, row.net)] else [])
  }

  /** The notices of a whole table, row by row. */
  function Notices(rows: seq<Row>, selected: string, tax: real, afterTaxIncome: real): seq<Notice> {
    if rows == [] then []
    else Notices(rows[..|rows| - 1], selected, tax, afterTaxIncome)
         + RowNotices(rows[|rows| - 1], selected, tax, afterTaxIncome)
  }

  /** A lower-tax notice names exactly the other modes whose tax is strictly
      below the selected one's; a higher-net notice exactly those whose income
      after tax is strictly above. */
  lemma {:induction false} NoticesMeaning(rows: seq<Row>, selected: string, tax: real, afterTaxIncome: real,
                                          m: string, amount: real)
    ensures LowerTax(m, amount) in Notices(rows, selected, tax, afterTaxIncome)
            <==> m != selected && amount < tax && exists k :: 0 <= k < |rows| && rows[k].mode == m && rows[k].tax == amount
    ensures HigherNet(m, amount) in Notices(rows, selected, tax, afterTaxIncome)
            <==> m != selected && amount > afterTaxIncome && exists k :: 0 <= k < |rows| && rows[k].mode == m && rows[k].net == amount
  {
    if rows != [] {
      var init := rows[..|rows| - 1];
      NoticesMeaning(init, selected, tax, afterTaxIncome, m, amount);
      forall k | 0 <= k < |init| ensures init[k] == rows[k] {
      }
    }
  }

  /** The comparison table: a loop computing every offered mode's row. */
  method TabulateModes(modes: seq<string>, incomeYear: real, salariesYear: real, expensesYear: real)
    returns (rows: seq<Row>)
    ensures |rows| == |modes|
    ensures forall k :: 0 <= k < |modes| ==> rows[k] == RowOf(modes[k], incomeYear, salariesYear, expensesYear)
  {
    rows := [];
    for n := 0 to |modes|
      invariant |rows| == n
      invariant forall k :: 0 <= k < n ==> rows[k] == RowOf(modes[k], incomeYear, salariesYear, expensesYear)
    {
      var altTax, altAfter, altWarnings := CalculateTaxes(modes[n], incomeYear, salariesYear, expensesYear);
      rows := rows + [Row(modes[n], altTax, altAfter)];
    }
  }

  /** The recommendations: a loop over the table issuing each row's notices in turn. */
  method CollectNotices(rows: seq<Row>, selected: string, tax: real, afterTaxIncome: real)
    returns (notices: seq<Notice>)
    ensures notices == Notices(rows, selected, tax, afterTaxIncome)
  {
    notices := [];
    for n := 0 to |rows|
      invariant notices == Notices(rows[..n], selected, tax, afterTaxIncome)
    {
      assert rows[..n + 1][..n] == rows[..n];
      if rows[n].mode != selected && rows[n].tax < tax {
        notices := notices + [LowerTax(rows[n].mode, rows[n].tax)];
      }
      if rows[n].mode != selected && rows[n].net > afterTaxIncome {
        notices := notices + [HigherNet(rows[n].mode, rows[n].net)];
      }
    }
    assert rows[..|rows|] == rows;
  }

  /** The comparison as the program runs it, only when more than one mode is offered. */
  method CompareModes(modes: seq<string>, selected: string, tax: real, afterTaxIncome: real,
                      incomeYear: real, salariesYear: real, expensesYear: real)
    returns (rows: seq<Row>, notices: seq<Notice>)
    ensures |modes| <= 1 ==> rows == [] && notices == []
    ensures |modes| > 1 ==> |rows| == |modes|
    ensures |modes| > 1 ==> forall k :: 0 <= k < |modes| ==> rows[k] == RowOf(modes[k], incomeYear, salariesYear, expensesYear)
    ensures |modes| > 1 ==> notices == Notices(rows, selected, tax, afterTaxIncome)
  {
    rows := [];
    notices := [];
    if |modes| > 1 {
      rows := TabulateModes(modes, incomeYear, salariesYear, expensesYear);
      notices := CollectNotices(rows, selected, tax, afterTaxIncome);
    }
  }

  /** Everything one press of the calculate button produces. */
  datatype Report = Report(outcome: Outcome, rows: seq<Row>, notices: seq<Notice>)

  /** One request: collect the offered modes (stop when there are none),
      annualise the figures, calculate the selected mode and compare. */
  method Run(entity: Entity, hasEmployees: bool, income: real, salaries: real, expenses: real,
             period: Period, selected: string)
    returns (report: Option<Report>)
    ensures report.None? <==> OfferedModes(entity, hasEmployees, income, period) == []
    ensures report.Some? ==>
              var i := Annualise(income, period);
              var s := Annualise(EnteredCost(entity, hasEmployees, salaries), period);
              var e := Annualise(EnteredCost(entity, hasEmployees, expenses), period);
              var modes := OfferedModes(entity, hasEmployees, income, period);
              && report.value.outcome == Assess(selected, i, s, e)
              && (|modes| <= 1 ==> report.value.rows == [] && report.value.notices == [])
              && (|modes| > 1 ==>
                    && |report.value.rows| == |modes|
                    && (forall k :: 0 <= k < |modes| ==> report.value.rows[k] == RowOf(modes[k], i, s, e))
                    && report.value.notices
                       == Notices(report.value.rows, selected, report.value.outcome.tax, report.value.outcome.afterTaxIncome))
  {
    var salariesEntered, expensesEntered := 0.0, 0.0;
    if entity in {Ip, Too} || hasEmployees {
      salariesEntered, expensesEntered := salaries, expenses;
    }
    var modes := AvailableModes(entity, hasEmployees, income, period);
    if modes == [] {
      return None;
    }
    var incomeAnnual, salariesAnnual, expensesAnnual;
    if period == Month {
      incomeAnnual := income * 12.0;
      salariesAnnual := salariesEntered * 12.0;
      expensesAnnual := expensesEntered * 12.0;
    } else {
      incomeAnnual := income;
      salariesAnnual := salariesEntered;
      expensesAnnual := expensesEntered;
    }
    assert incomeAnnual == Annualise(income, period);
    assert salariesAnnual == Annualise(EnteredCost(entity, hasEmployees, salaries), period);
    assert expensesAnnual == Annualise(EnteredCost(entity, hasEmployees, expenses), period);
    var tax, afterTaxIncome, warnings := CalculateTaxes(selected, incomeAnnual, salariesAnnual, expensesAnnual);
    var rows, notices := CompareModes(modes, selected, tax, afterTaxIncome, incomeAnnual, salariesAnnual, expensesAnnual);
    report := Some(Report(Outcome(tax, afterTaxIncome, warnings), rows, notices));
  }
}
