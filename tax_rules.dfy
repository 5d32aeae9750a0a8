/** Vocabulary shared by both calculators: the simplified-regime ceilings, the
    entity types, the four regimes and their mode keys, the warnings a
    calculation can raise, the entity-type eligibility table and the
    monthly-to-annual normalisation. Amounts are exact reals. */
module TaxRules {

  datatype Option<+T> = None | Some(value: T)

  /** Monthly income ceiling of the simplified regime (about 300 monthly calculation indices). */
  const LIMIT_SNR_MONTH: real := 1300000.0
  /** Annual income ceiling of the simplified regime (about 2.5 billion tenge). */
  const LIMIT_SNR_YEAR: real := 2500000000.0

  /** Who the taxpayer is: a private individual, a sole proprietor (ИП),
      a company (ТОО) or a peasant farm (КХ). */
  datatype Entity = Individual | Ip | Too | Kh

  /** The period the entered figures cover. */
  datatype Period = Month | Year

  /** The four regimes the calculators know. */
  datatype Regime =
    | SnrIndividual   // simplified regime for the self-employed, 4% of income
    | SnrIpTooKh      // simplified (retail) regime for ИП, ТОО and КХ, 4% of income
    | GeneralIp       // general regime for a sole proprietor, 10% of profit
    | GeneralToo      // general regime for a company, 20% of profit

  /** The mode string under which the calculators select a regime. */
  function Key(r: Regime): string {
    match r
    case SnrIndividual => "snr_individual"
    case SnrIpTooKh => "snr_ip_too_kh"
    case GeneralIp => "general_ip"
    case GeneralToo => "general_too"
  }

  /** The regime a mode string selects, if any: the inverse of Key. */
  function RegimeOf(mode: string): (r: Option<Regime>)
    ensures r.Some? ==> Key(r.value) == mode
    ensures r.None? ==> forall g :: Key(g) != mode
  {
    if mode == "snr_individual" then Some(SnrIndividual)
    else if mode == "snr_ip_too_kh" then Some(SnrIpTooKh)
    else if mode == "general_ip" then Some(GeneralIp)
    else if mode == "general_too" then Some(GeneralToo)
    else None
  }

  lemma KeyRoundTrip(r: Regime)
    ensures RegimeOf(Key(r)) == Some(r)
  {
  }

  predicate IsSimplified(r: Regime) {
    r == SnrIndividual || r == SnrIpTooKh
  }

  /** The test the annual-ceiling filter applies to a mode key. */
  predicate HasSnrPrefix(mode: string) {
    "snr" <= mode
  }

  /** A key starts with "snr" exactly when it names a simplified regime. */
  lemma SnrPrefixIffSimplified(r: Regime)
    ensures HasSnrPrefix(Key(r)) <==> IsSimplified(r)
  {
    match r
    case GeneralIp => assert Key(r)[0] == 'g';
    case GeneralToo => assert Key(r)[0] == 'g';
    case _ =>
  }

  /** The rate each regime applies: to income for the simplified regimes, to profit for the general ones. */
  function Rate(r: Regime): real {
    match r
    case SnrIndividual => 0.04
    case SnrIpTooKh => 0.04
    case GeneralIp => 0.10
    case GeneralToo => 0.20
  }

  /** Profit tax with the loss floor: nothing is due on a profit that is not positive. */
  function FlooredProfitTax(rate: real, profit: real): real {
    if profit <= 0.0 then 0.0 else profit * rate
  }

  lemma FlooredProfitTaxNonNegative(r: Regime, profit: real)
    requires !IsSimplified(r)
    ensures FlooredProfitTax(Rate(r), profit) >= 0.0
    ensures profit <= 0.0 ==> FlooredProfitTax(Rate(r), profit) == 0.0
    ensures profit > 0.0 ==> 0.0 < FlooredProfitTax(Rate(r), profit) < profit
  {
  }

  /** Soft warnings. `attention` marks the texts of the entity simplified
      regime, which carry an extra "Внимание!!!" prefix. */
  datatype Warning =
    | EmployeesPresent              // the self-employed regime is not open to an employer
    | MonthlyLimit(attention: bool) // income above the monthly simplified ceiling
    | AnnualLimit(attention: bool)  // income above the annual simplified ceiling
    | Loss                          // no positive profit, so no profit tax

  /** The position of a warning kind in the order the calculators emit them. */
  function Rank(w: Warning): nat {
    match w
    case EmployeesPresent => 0
    case MonthlyLimit(_) => 1
    case AnnualLimit(_) => 2
    case Loss => 3
  }

  /** Warnings appear in emission order, each kind at most once. */
  predicate Ordered(ws: seq<Warning>) {
    forall j, k :: 0 <= j < k < |ws| ==> Rank(ws[j]) < Rank(ws[k])
  }

  /** The two ceiling checks, monthly first. */
  function CeilingWarnings(income: real, attention: bool): seq<Warning> {
    (if income / 12.0 > LIMIT_SNR_MONTH then [MonthlyLimit(attention)] else [])
    + (if income > LIMIT_SNR_YEAR then [AnnualLimit(attention)] else [])
  }

  /** The warnings of the self-employed regime: employees first, then the ceilings. */
  function IndividualWarnings(income: real, salaries: real): seq<Warning> {
    (if salaries > 0.0 then [EmployeesPresent] else []) + CeilingWarnings(income, false)
  }

  /** The warning of a general regime: a loss, when there is no positive profit. */
  function LossWarnings(profit: real): seq<Warning> {
    if profit <= 0.0 then [Loss] else []
  }

  /** What the self-employed regime promises of its warnings: each fires exactly
      under its condition, nothing else fires, and they come in order. */
  ghost predicate IndividualWarningsOk(ws: seq<Warning>, income: real, salaries: real) {
    && Ordered(ws)
    && (forall w :: w in ws ==> w == EmployeesPresent || w == MonthlyLimit(false) || w == AnnualLimit(false))
    && (EmployeesPresent in ws <==> salaries > 0.0)
    && (MonthlyLimit(false) in ws <==> income / 12.0 > LIMIT_SNR_MONTH)
    && (AnnualLimit(false) in ws <==> income > LIMIT_SNR_YEAR)
  }

  /** The entity simplified regime: only the two (prefixed) ceiling warnings, in order. */
  ghost predicate EntityWarningsOk(ws: seq<Warning>, income: real) {
    && Ordered(ws)
    && (forall w :: w in ws ==> w == MonthlyLimit(true) || w == AnnualLimit(true))
    && (MonthlyLimit(true) in ws <==> income / 12.0 > LIMIT_SNR_MONTH)
    && (AnnualLimit(true) in ws <==> income > LIMIT_SNR_YEAR)
  }

  /** The general regimes: at most the single loss warning, exactly when profit is not positive. */
  ghost predicate GeneralWarningsOk(ws: seq<Warning>, profit: real) {
    && |ws| <= 1
    && (forall w :: w in ws ==> w == Loss)
    && (Loss in ws <==> profit <= 0.0)
  }

  /** Two ordered warning lists with the same members are the same list. */
  lemma {:induction false} OrderedByMembers(a: seq<Warning>, b: seq<Warning>)
    requires Ordered(a) && Ordered(b)
    requires forall w :: w in a <==> w in b
    ensures a == b
  {
    if a != [] {
      assert a[0] in a;
    }
    if b != [] {
      assert b[0] in b;
    }
    if a != [] && b != [] {
      HeadIsLeast(a, b[0]);
      HeadIsLeast(b, a[0]);
      forall w
        ensures w in a[1..] <==> w in b[1..]
      {
        TailMembers(a, w);
        TailMembers(b, w);
      }
      OrderedByMembers(a[1..], b[1..]);
      assert a == [a[0]] + a[1..];
      assert b == [b[0]] + b[1..];
    }
  }

  lemma HeadIsLeast(a: seq<Warning>, w: Warning)
    requires Ordered(a) && w in a
    ensures w == a[0] || Rank(a[0]) < Rank(w)
  {
  }

  lemma TailMembers(a: seq<Warning>, w: Warning)
    requires Ordered(a) && a != []
    ensures w in a[1..] <==> w in a && w != a[0]
  {
  }

  /** The self-employed warnings are exactly the lists that keep that regime's promise. */
  lemma IndividualWarningsMeaning(ws: seq<Warning>, income: real, salaries: real)
    ensures ws == IndividualWarnings(income, salaries) <==> IndividualWarningsOk(ws, income, salaries)
  {
    var e := IndividualWarnings(income, salaries);
    assert IndividualWarningsOk(e, income, salaries);
    if IndividualWarningsOk(ws, income, salaries) {
      forall w ensures w in ws <==> w in e {
      }
      OrderedByMembers(ws, e);
    }
  }

  /** The entity simplified warnings are exactly the lists that keep that regime's promise. */
  lemma EntityWarningsMeaning(ws: seq<Warning>, income: real)
    ensures ws == CeilingWarnings(income, true) <==> EntityWarningsOk(ws, income)
  {
    var e := CeilingWarnings(income, true);
    assert EntityWarningsOk(e, income);
    if EntityWarningsOk(ws, income) {
      forall w ensures w in ws <==> w in e {
      }
      OrderedByMembers(ws, e);
    }
  }

  /** The loss warning list is exactly the list that keeps the general regimes' promise. */
  lemma LossWarningsMeaning(ws: seq<Warning>, profit: real)
    ensures ws == LossWarnings(profit) <==> GeneralWarningsOk(ws, profit)
  {
    if GeneralWarningsOk(ws, profit) && ws != [] {
      assert ws[0] in ws;
      assert ws == [Loss];
    }
  }

  /** The annual ceiling is above twelve monthly ceilings, so the annual warning
      never fires without the monthly one. */
  lemma AnnualWarningImpliesMonthly(income: real, attention: bool)
    ensures AnnualLimit(attention) in CeilingWarnings(income, attention)
            ==> MonthlyLimit(attention) in CeilingWarnings(income, attention)
  {
    assert LIMIT_SNR_YEAR / 12.0 > LIMIT_SNR_MONTH;
  }

  /** The entity-type eligibility rule, in the order the regimes are offered. */
  function EntityModes(entity: Entity, hasEmployees: bool): seq<string> {
    match entity
    case Individual => if hasEmployees then [] else [Key(SnrIndividual)]
    case Ip => [Key(SnrIpTooKh), Key(GeneralIp)]
    case Too => [Key(SnrIpTooKh), Key(GeneralToo)]
    case Kh => [Key(SnrIpTooKh)]
  }

  /** Every offered mode is a known regime, offered once; the simplified regime comes first. */
  lemma EntityModesWellFormed(entity: Entity, hasEmployees: bool)
    ensures forall m :: m in EntityModes(entity, hasEmployees) ==> RegimeOf(m).Some?
    ensures var ms := EntityModes(entity, hasEmployees);
            forall j, k :: 0 <= j < k < |ms| ==> ms[j] != ms[k]
    ensures var ms := EntityModes(entity, hasEmployees);
            ms != [] ==> HasSnrPrefix(ms[0]) && forall k :: 1 <= k < |ms| ==> !HasSnrPrefix(ms[k])
  {
    SnrPrefixIffSimplified(SnrIndividual);
    SnrPrefixIffSimplified(SnrIpTooKh);
    SnrPrefixIffSimplified(GeneralIp);
    SnrPrefixIffSimplified(GeneralToo);
  }

  /** No entity is offered both general regimes, and only an individual with employees gets nothing. */
  lemma EntityModesShape(entity: Entity, hasEmployees: bool)
    ensures !(Key(GeneralIp) in EntityModes(entity, hasEmployees) && Key(GeneralToo) in EntityModes(entity, hasEmployees))
    ensures EntityModes(entity, hasEmployees) == [] <==> entity == Individual && hasEmployees
    ensures Key(SnrIndividual) in EntityModes(entity, hasEmployees) <==> entity == Individual && !hasEmployees
    ensures Key(GeneralIp) in EntityModes(entity, hasEmployees) <==> entity == Ip
    ensures Key(GeneralToo) in EntityModes(entity, hasEmployees) <==> entity == Too
    ensures Key(SnrIpTooKh) in EntityModes(entity, hasEmployees) <==> entity != Individual
  {
  }

  /** Monthly figures are scaled to a year; annual ones are kept. */
  function Annualise(x: real, period: Period): real {
    if period == Month then x * 12.0 else x
  }

  /** Annualisation is linear: it commutes with the percentage-of-income tax and
      with the loss-floored profit tax alike. */
  lemma AnnualiseScalesTaxes(rate: real, income: real, profit: real, period: Period)
    ensures Annualise(income, period) * rate == Annualise(income * rate, period)
    ensures FlooredProfitTax(rate, Annualise(profit, period)) == Annualise(FlooredProfitTax(rate, profit), period)
  {
  }

  /** The payroll and expense figures are only asked for from a sole proprietor,
      a company, or anyone with employees; everyone else calculates with zero. */
  function EnteredCost(entity: Entity, hasEmployees: bool, entered: real): real {
    if entity == Ip || entity == Too || hasEmployees then entered else 0.0
  }
}
