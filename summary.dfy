/** The summary screen (app/summary/page.jsx): its fallback `calcDaily` with
    the constants written inline, the request guard, and the client-side
    re-computation of a user's totals over the fetched daily records. */
module Summary {
  import opened Values
  import opened Arith
  import opened Records
  import opened SalaryConfig
  import opened Seqs
  import SalaryRule

  datatype DailyResult = DailyResult(combined: real, final: real)

  const PAY_PER_CONV: real := 20.0
  const LATE_BLOCK: real := 2000.0
  const THRESHOLD: real := 5.0
  const UNREPLIED_PENALTY: real := 500.0

  /** `calcDaily`: its combined time is `Number(combined.toFixed(2))`. */
  function CalcDaily(conversations: Value, avgFirst: Value, avgResp: Value, unreplied: Value): DailyResult
  {
    DailyOn(Coerce(conversations), Coerce(avgFirst), Coerce(avgResp), Coerce(unreplied))
  }

  function DailyOn(conv: real, first: real, resp: real, unr: real): DailyResult
  {
    var base := conv * PAY_PER_CONV;
    var combined := (first + resp) / 2.0;
    var late := if combined > THRESHOLD then Ceil((combined - THRESHOLD) / 5.0) as real * LATE_BLOCK else 0.0;
    var penalty := late + unr * UNREPLIED_PENALTY;
    DailyResult(Round2(combined), Max(base - penalty, 0.0))
  }

  /** The constants written into `calcDaily` are those of the configuration. */
  lemma InlineConstantsAreConfig()
    ensures PAY_PER_CONV == SALARY_CONFIG.payPerConversation
    ensures LATE_BLOCK == SALARY_CONFIG.lateResponsePenalty
    ensures THRESHOLD == SALARY_CONFIG.responseTimeThreshold
    ensures UNREPLIED_PENALTY == SALARY_CONFIG.unrepliedPenalty
  {
  }

  /** `calcDaily` is the shared rule; only its combined time is rounded. */
  lemma CalcDailyIsRule(conversations: Value, avgFirst: Value, avgResp: Value, unreplied: Value)
    ensures var r := CalcDaily(conversations, avgFirst, avgResp, unreplied);
      var d := SalaryRule.Canonical(SALARY_CONFIG, conversations, avgFirst, avgResp, unreplied);
      r.final == d.final && r.combined == Round2(d.combined) && r.final >= 0.0
  {
    DailyOnIsRule(Coerce(conversations), Coerce(avgFirst), Coerce(avgResp), Coerce(unreplied));
  }

  lemma DailyOnIsRule(conv: real, first: real, resp: real, unr: real)
    ensures var r := DailyOn(conv, first, resp, unr);
      var d := SalaryRule.DailyPay(SALARY_CONFIG, conv, first, resp, unr);
      r.final == d.final && r.combined == Round2(d.combined) && r.final >= 0.0
  {
  }

  /** `handleSummary` refuses to ask unless a user and both bounds are chosen. */
  predicate SummaryAllowed(user: string, from: string, to: string)
  {
    from != "" && to != "" && user != ""
  }

  /** The coerced metrics of one record. */
  function Conv(r: DailyRecord): real { Coerce(r.conversations) }
  function Unreplied(r: DailyRecord): real { Coerce(r.unrepliedChats) }

  /** `calcDaily` on the record's already coerced metrics. */
  function Daily(r: DailyRecord): DailyResult
  {
    CalcDaily(Num(Coerce(r.conversations)), Num(Coerce(r.avgFirstResponse)),
              Num(Coerce(r.avgResponseTime)), Num(Coerce(r.unrepliedChats)))
  }

  function DailyFinal(r: DailyRecord): real { Daily(r).final }

  /** A record's contribution to the combined sum: `Number` of the stored
      value when it is neither undefined nor null (None is NaN), else the
      computed rounded combined time. */
  function CombinedOf(r: DailyRecord): Option<real>
  {
    if r.combinedAvgResponseTime != Undefined && r.combinedAvgResponseTime != Null
    then ToNumber(r.combinedAvgResponseTime)
    else Some(Daily(r).combined)
  }

  /** A sum folded from the front in which one NaN (None) makes the whole sum NaN. */
  function NanSum<T>(items: seq<T>, f: T -> Option<real>): Option<real>
  {
    if items == [] then Some(0.0)
    else AddCombined(NanSum(items[..|items| - 1], f), f(items[|items| - 1]))
  }

  /** The sum of the contributions. */
  function CombinedSum(items: seq<DailyRecord>): Option<real>
  {
    NanSum(items, CombinedOf)
  }

  /** One more record in the fold, for each of the four sums. */
  lemma TotalsStep(items: seq<DailyRecord>, i: nat)
    requires i < |items|
    ensures SumOf(items[..i + 1], Conv) == SumOf(items[..i], Conv) + Conv(items[i])
    ensures SumOf(items[..i + 1], DailyFinal) == SumOf(items[..i], DailyFinal) + DailyFinal(items[i])
    ensures SumOf(items[..i + 1], Unreplied) == SumOf(items[..i], Unreplied) + Unreplied(items[i])
    ensures CombinedSum(items[..i + 1]) == AddCombined(CombinedSum(items[..i]), CombinedOf(items[i]))
  {
    SumOfPrefix(items, i, Conv);
    SumOfPrefix(items, i, DailyFinal);
    SumOfPrefix(items, i, Unreplied);
    CombinedSumPrefix(items, i);
  }

  lemma CombinedSumPrefix(items: seq<DailyRecord>, i: nat)
    requires i < |items|
    ensures CombinedSum(items[..i + 1]) == AddCombined(CombinedSum(items[..i]), CombinedOf(items[i]))
  {
    assert items[..i + 1][..i] == items[..i];
  }

  /** The sum of the contributions is a number exactly when every contribution is. */
  lemma CombinedSumDefined(items: seq<DailyRecord>)
    ensures CombinedSum(items).Some? <==> forall i :: 0 <= i < |items| ==> CombinedOf(items[i]).Some?
  {
    NanSumDefined(items, CombinedOf);
  }

  lemma {:induction false} NanSumDefined<T>(items: seq<T>, f: T -> Option<real>)
    ensures NanSum(items, f).Some? <==> forall i :: 0 <= i < |items| ==> f(items[i]).Some?
  {
    if items != [] {
      var init := items[..|items| - 1];
      NanSumDefined(init, f);
      assert forall i :: 0 <= i < |init| ==> init[i] == items[i];
    }
  }

  /** The verified totals; `avgCombined` None is NaN. */
  datatype Totals = Totals(daysCounted: nat, totalConversations: real, totalSalary: real,
                           totalUnreplied: real, avgCombined: Option<real>)

  /** The running `totals` object of the fold, before the day count is attached. */
  datatype Running = Running(totalConversations: real, totalSalary: real, totalUnreplied: real,
                             combinedSum: Option<real>)

  /** Adds a NaN-propagating contribution to the combined sum. */
  function AddCombined(sum: Option<real>, c: Option<real>): Option<real>
  {
    match (sum, c)
    case (Some(s), Some(x)) => Some(s + x)
    case _ => None
  }

  /** The `forEach` callback: one record added to the running totals. */
  method AddRecord(totals: Running, r: DailyRecord) returns (next: Running)
    ensures next.totalConversations == totals.totalConversations + Conv(r)
    ensures next.totalSalary == totals.totalSalary + DailyFinal(r)
    ensures next.totalUnreplied == totals.totalUnreplied + Unreplied(r)
    ensures next.combinedSum == AddCombined(totals.combinedSum, CombinedOf(r))
  {
    var conv := Coerce(r.conversations);
    var first := Coerce(r.avgFirstResponse);
    var resp := Coerce(r.avgResponseTime);
    var unr := Coerce(r.unrepliedChats);
    var daily := CalcDaily(Num(conv), Num(first), Num(resp), Num(unr));
    var combined := if r.combinedAvgResponseTime != Undefined && r.combinedAvgResponseTime != Null
      then ToNumber(r.combinedAvgResponseTime) else Some(daily.combined);
    next := Running(totals.totalConversations + conv, totals.totalSalary + daily.final,
                    totals.totalUnreplied + unr, AddCombined(totals.combinedSum, combined));
  }

  /** `handleSummary`'s verification over the fetched records, with the empty list handled apart. */
  method VerifyTotals(items: seq<DailyRecord>) returns (t: Totals)
    ensures items == [] ==> t == Totals(0, 0.0, 0.0, 0.0, Some(0.0))
    ensures t.daysCounted == |items|
    ensures t.totalConversations == SumOf(items, Conv)
    ensures t.totalSalary == SumOf(items, DailyFinal)
    ensures t.totalUnreplied == SumOf(items, Unreplied)
    ensures items != [] ==> t.avgCombined == match CombinedSum(items)
      case Some(s) => Some(Round2(s / |items| as real))
      case None => None
  {
    if |items| == 0 {
      return Totals(0, 0.0, 0.0, 0.0, Some(0.0));
    }
    var totals := Running(0.0, 0.0, 0.0, Some(0.0));
    var i := 0;
    while i < |items|
      invariant 0 <= i <= |items|
      invariant totals.totalConversations == SumOf(items[..i], Conv)
      invariant totals.totalSalary == SumOf(items[..i], DailyFinal)
      invariant totals.totalUnreplied == SumOf(items[..i], Unreplied)
      invariant totals.combinedSum == CombinedSum(items[..i])
    {
      TotalsStep(items, i);
      totals := AddRecord(totals, items[i]);
      i := i + 1;
    }
    assert items[..i] == items;
    var avg := match totals.combinedSum
      case Some(s) => Some(Round2(s / |items| as real))
      case None => None;
    t := Totals(|items|, totals.totalConversations, totals.totalSalary, totals.totalUnreplied, avg);
  }

  /** `handleSummary`: refused, with nothing asked, unless a user and both
      bounds are chosen; otherwise the fetched records (None when a request
      fails, Some(None) when the response has no items) are totalled. */
  method HandleSummary(user: string, from: string, to: string, response: Option<Option<seq<DailyRecord>>>)
    returns (refused: bool, verified: Option<Totals>)
    ensures refused <==> user == "" || from == "" || to == ""
    ensures refused || response.None? ==> verified == None
    ensures !refused && response.Some? ==> verified.Some?
    ensures !refused && response.Some? && verified.Some? ==>
      var items := response.value.GetOr([]);
      && verified.value.daysCounted == |items|
      && verified.value.totalConversations == SumOf(items, Conv)
      && verified.value.totalSalary == SumOf(items, DailyFinal)
      && verified.value.totalUnreplied == SumOf(items, Unreplied)
      && (items == [] ==> verified.value.avgCombined == Some(0.0))
      && (items != [] ==> verified.value.avgCombined == match CombinedSum(items)
            case Some(s) => Some(Round2(s / |items| as real))
            case None => None)
  {
    refused := !SummaryAllowed(user, from, to);
    if refused || response.None? {
      return refused, None;
    }
    var t := VerifyTotals(response.value.GetOr([]));
    verified := Some(t);
  }

  /** The verified total salary is never negative. */
  lemma TotalSalaryNonNegative(items: seq<DailyRecord>)
    ensures SumOf(items, DailyFinal) >= 0.0
  {
    forall i | 0 <= i < |items| ensures DailyFinal(items[i]) >= 0.0 {
    }
    SumOfNonNegative(items, DailyFinal);
  }

  /** The verified total salary is the sum of the shared rule's finals over the records. */
  lemma {:induction false} TotalSalaryIsRule(items: seq<DailyRecord>)
    ensures SumOf(items, DailyFinal) == SumOf(items, RuleFinal)
  {
    if items != [] {
      var r := items[|items| - 1];
      TotalSalaryIsRule(items[..|items| - 1]);
      CalcDailyIsRule(Num(Coerce(r.conversations)), Num(Coerce(r.avgFirstResponse)),
                      Num(Coerce(r.avgResponseTime)), Num(Coerce(r.unrepliedChats)));
    }
  }

  function RuleFinal(r: DailyRecord): real
  {
    SalaryRule.Canonical(SALARY_CONFIG, r.conversations, r.avgFirstResponse, r.avgResponseTime, r.unrepliedChats).final
  }

  /** A stored combined time wins over the computed one, null and undefined
      fall back to it, and an unreadable stored value is NaN. */
  lemma CombinedPreference(r: DailyRecord, x: real)
    ensures r.combinedAvgResponseTime == Num(x) ==> CombinedOf(r) == Some(x)
    ensures r.combinedAvgResponseTime == Null ==> CombinedOf(r) == Some(Daily(r).combined)
    ensures r.combinedAvgResponseTime == Undefined ==> CombinedOf(r) == Some(Daily(r).combined)
    ensures r.combinedAvgResponseTime == NaN ==> CombinedOf(r) == None
  {
  }
}
