/** The live calculator of app/SalaryCalculator.jsx: `computeSalary` with its
    constants written inline, and the form's initial inputs. */
module AppSalaryCalculator {
  import opened Values
  import opened Arith
  import opened SalaryConfig
  import SalaryRule

  datatype Salary = Salary(base: real, combined: real, penalty: real, final: real)

  function ComputeSalary(conversations: Value, avgFirst: Value, avgResp: Value, unreplied: Value): Salary
  {
    Pay(Coerce(conversations), Coerce(avgFirst), Coerce(avgResp), Coerce(unreplied))
  }

  /** The arithmetic of `computeSalary` after its inputs are coerced. */
  function Pay(conv: real, first: real, resp: real, unr: real): Salary
  {
    var base := conv * 20.0;
    var combined := (first + resp) / 2.0;
    var late := if combined > 5.0 then Ceil((combined - 5.0) / 5.0) as real * 2000.0 else 0.0;
    var penalty := late + unr * 500.0;
    Salary(base, Round2(combined), penalty, Max(base - penalty, 0.0))
  }

  /** The form starts at 1000 conversations, 5 and 5 minutes, no unreplied chats. */
  const DEFAULT_CONVERSATIONS: Value := Num(1000.0)
  const DEFAULT_AVG_FIRST: Value := Num(5.0)
  const DEFAULT_AVG_RESP: Value := Num(5.0)
  const DEFAULT_UNREPLIED: Value := Num(0.0)

  /** `computeSalary` is the shared rule under the shipped configuration; only
      the combined time it returns is rounded to hundredths. */
  lemma ComputeSalaryIsRule(conversations: Value, avgFirst: Value, avgResp: Value, unreplied: Value)
    ensures var r := ComputeSalary(conversations, avgFirst, avgResp, unreplied);
      var d := SalaryRule.Canonical(SALARY_CONFIG, conversations, avgFirst, avgResp, unreplied);
      r.base == d.base && r.penalty == d.penalty && r.final == d.final && r.combined == Round2(d.combined)
  {
    PayIsRule(Coerce(conversations), Coerce(avgFirst), Coerce(avgResp), Coerce(unreplied));
  }

  lemma PayIsRule(conv: real, first: real, resp: real, unr: real)
    ensures var r := Pay(conv, first, resp, unr);
      var d := SalaryRule.DailyPay(SALARY_CONFIG, conv, first, resp, unr);
      r.base == d.base && r.penalty == d.penalty && r.final == d.final && r.combined == Round2(d.combined)
  {
  }

  /** Every result it shows is non-negative pay. */
  lemma ComputeSalaryFinalNonNegative(conversations: Value, avgFirst: Value, avgResp: Value, unreplied: Value)
    ensures ComputeSalary(conversations, avgFirst, avgResp, unreplied).final >= 0.0
  {
  }

  /** The penalty is taken from the unrounded combined time: 5.004 minutes show
      as 5.00 yet cost one late block. */
  lemma PenaltyIgnoresDisplayRounding()
    ensures var r := ComputeSalary(Num(1000.0), Num(5.008), Num(5.0), Num(0.0));
      r.combined == 5.0 && r.penalty == 2000.0 && r.final == 18000.0
  {
    assert Ceil(0.004 / 5.0) == 1;
    assert (5.004 * 100.0 + 0.5).Floor == 500;
  }

  /** The initial form gives base 20000, no penalty and final 20000. */
  lemma DefaultInputs()
    ensures ComputeSalary(DEFAULT_CONVERSATIONS, DEFAULT_AVG_FIRST, DEFAULT_AVG_RESP, DEFAULT_UNREPLIED)
            == Salary(20000.0, 5.0, 0.0, 20000.0)
  {
    Round2Exact(500);
  }
}

/** The older calculator of components/SalaryCalculator.jsx: `calculateSalary`.
    Its combined time is the string `toFixed(2)`; here it is the rounded number. */
module ComponentSalaryCalculator {
  import opened Values
  import opened Arith
  import AppSalaryCalculator
  import SalaryRule

  datatype Salary = Salary(base: real, combined: real, penalty: real, final: real)

  function CalculateSalary(conversations: Value, avgFirst: Value, avgResponse: Value, unreplied: Value): Salary
  {
    Calculate(Coerce(conversations), Coerce(avgFirst), Coerce(avgResponse), Coerce(unreplied))
  }

  /** The arithmetic of `calculateSalary` after its inputs are coerced. */
  function Calculate(conv: real, first: real, resp: real, unr: real): Salary
  {
    var base := conv * 20.0;
    var combined := (first + resp) / 2.0;
    var penalty := (if combined > 5.0 then Ceil((combined - 5.0) / 5.0) as real * 2000.0 else 0.0) + unr * 500.0;
    Salary(base, Round2(combined), penalty, Max(base - penalty, 0.0))
  }

  /** Both calculators agree on every field for every input. */
  lemma SameAsComputeSalary(conversations: Value, avgFirst: Value, avgResponse: Value, unreplied: Value)
    ensures var c := CalculateSalary(conversations, avgFirst, avgResponse, unreplied);
      var a := AppSalaryCalculator.ComputeSalary(conversations, avgFirst, avgResponse, unreplied);
      c.base == a.base && c.combined == a.combined && c.penalty == a.penalty && c.final == a.final
  {
    var conv, first, resp, unr := Coerce(conversations), Coerce(avgFirst), Coerce(avgResponse), Coerce(unreplied);
    var c := Calculate(conv, first, resp, unr);
    var a := AppSalaryCalculator.Pay(conv, first, resp, unr);
    assert c.base == a.base && c.combined == a.combined && c.penalty == a.penalty && c.final == a.final;
  }

  /** The final pay is the difference when the base covers the penalty, else 0. */
  lemma FinalIsFlooredDifference(conversations: Value, avgFirst: Value, avgResponse: Value, unreplied: Value)
    ensures var c := CalculateSalary(conversations, avgFirst, avgResponse, unreplied);
      && c.final >= 0.0
      && (c.base >= c.penalty ==> c.final == c.base - c.penalty)
      && (c.base < c.penalty ==> c.final == 0.0)
  {
  }

  /** Each unreplied chat adds 500 to the penalty, whatever the other inputs. */
  lemma UnrepliedAddsFiveHundred(conversations: Value, avgFirst: Value, avgResponse: Value, n: real)
    ensures CalculateSalary(conversations, avgFirst, avgResponse, Num(n + 1.0)).penalty
            == CalculateSalary(conversations, avgFirst, avgResponse, Num(n)).penalty + 500.0
  {
  }

  /** No late penalty unless the combined time is above 5 minutes; above it,
      2000 per started block of 5 minutes. */
  lemma LatePenaltyBlocks(conversations: Value, avgFirst: Value, avgResponse: Value)
    ensures var c := (Coerce(avgFirst) + Coerce(avgResponse)) / 2.0;
      var late := CalculateSalary(conversations, avgFirst, avgResponse, Num(0.0)).penalty;
      && (c <= 5.0 ==> late == 0.0)
      && (c > 5.0 ==> late == SalaryRule.LateBlocks(c, 5.0) as real * 2000.0 && late >= 2000.0)
  {
    assert Coerce(Num(0.0)) == 0.0;
    CalculateLate(Coerce(conversations), Coerce(avgFirst), Coerce(avgResponse));
  }

  lemma CalculateLate(conv: real, first: real, resp: real)
    ensures var c := (first + resp) / 2.0;
      var late := Calculate(conv, first, resp, 0.0).penalty;
      && (c <= 5.0 ==> late == 0.0)
      && (c > 5.0 ==> late == SalaryRule.LateBlocks(c, 5.0) as real * 2000.0 && late >= 2000.0)
  {
  }
}
