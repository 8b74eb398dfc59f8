/** The payout screen of app/note.jsx: its date-range presets, the guards of
    its compute and save actions, and the per-day salary its details drawer
    recomputes. */
module NotePage {
  import opened Values
  import opened Arith
  import opened Calendar
  import opened Records
  import opened SalaryConfig
  import opened PayoutData
  import SalaryRule

  /** `firstDayOfMonth(y, m)`: `new Date(y, m, 1)`. */
  function FirstDayOfMonth(y: int, m0: int): Date
  {
    MakeDate(y, m0, 1)
  }

  /** `lastDayOfMonth(y, m)`: `new Date(y, m + 1, 0, 23, 59, 59, 999)`; the time of day is dropped. */
  function LastDayOfMonth(y: int, m0: int): Date
  {
    MakeDate(y, m0 + 1, 0)
  }

  function RangeForPreset(key: string, now: Date): Range
    requires Valid(now)
  {
    if key == "today" then Range(now, now)
    else if key == "yesterday" then
      var y := SetDate(now, now.day - 1);
      Range(y, y)
    else if key == "last3" then Range(SetDate(now, now.day - 2), now)
    else if key == "last7" then Range(SetDate(now, now.day - 6), now)
    else if key == "last30" then Range(SetDate(now, now.day - 29), now)
    else if key == "thisMonth" then
      Range(FirstDayOfMonth(now.year, now.month - 1), LastDayOfMonth(now.year, now.month - 1))
    else if key == "lastMonth" then
      var m := (now.month - 1) - 1;
      var y := if m < 0 then now.year - 1 else now.year;
      var mm := (m + 12) % 12;
      Range(FirstDayOfMonth(y, mm), LastDayOfMonth(y, mm))
    else Unset
  }

  /** This copy gives the range each preset stands for. */
  lemma RangeIsPreset(key: string, now: Date)
    requires Valid(now)
    ensures RangeForPreset(key, now) == PresetRange(key, now)
  {
    if key == "yesterday" {
      YesterdayIsPreset(now);
    } else if key == "last3" {
      ShiftIsPreset(key, now, 2);
    } else if key == "last7" {
      ShiftIsPreset(key, now, 6);
    } else if key == "last30" {
      ShiftIsPreset(key, now, 29);
    } else if key == "thisMonth" {
      ThisMonthIsPreset(now);
    } else if key == "lastMonth" {
      LastMonthIsPreset(now);
    }
  }

  lemma YesterdayIsPreset(now: Date)
    requires Valid(now)
    ensures RangeForPreset("yesterday", now) == PresetRange("yesterday", now)
  {
    SetDateShift(now, 1);
    assert AddDays(now, -1) == AddDays(PrevDay(now), 0);
  }

  lemma ShiftIsPreset(key: string, now: Date, k: nat)
    requires Valid(now)
    requires (key == "last3" && k == 2) || (key == "last7" && k == 6) || (key == "last30" && k == 29)
    ensures RangeForPreset(key, now) == PresetRange(key, now)
  {
    SetDateShift(now, k);
  }

  lemma ThisMonthIsPreset(now: Date)
    requires Valid(now)
    ensures RangeForPreset("thisMonth", now) == PresetRange("thisMonth", now)
  {
      FirstOfMonth(now.year, now.month - 1);
      DayZeroOfNextMonth(now.year, now.month - 1);
  }

  lemma LastMonthIsPreset(now: Date)
    requires Valid(now)
    ensures RangeForPreset("lastMonth", now) == PresetRange("lastMonth", now)
  {
      var m := (now.month - 1) - 1;
      var y := if m < 0 then now.year - 1 else now.year;
      var mm := (m + 12) % 12;
      assert mm == if now.month == 1 then 11 else now.month - 2;
      FirstOfMonth(y, mm);
      DayZeroOfNextMonth(y, mm);
  }

  /** Today and yesterday are single days; yesterday is the day before today,
      across a month or a year boundary too. */
  lemma SingleDayPresets(now: Date)
    requires Valid(now)
    ensures RangeForPreset("today", now) == Range(now, now)
    ensures RangeForPreset("yesterday", now) == Range(PrevDay(now), PrevDay(now))
    ensures now.day == 1 && now.month == 1 ==> PrevDay(now) == Date(now.year - 1, 12, 31)
    ensures now.day == 1 && now.month > 1 ==> PrevDay(now) == LastDay(now.year, now.month - 1)
  {
    RangeIsPreset("yesterday", now);
  }

  /** The last-3, last-7 and last-30 presets end today and span that many days. */
  lemma LastDaysPresets(now: Date)
    requires Valid(now)
    ensures var r := RangeForPreset("last3", now); r.Range? && r.to == now && AddDays(r.from, 2) == now
    ensures var r := RangeForPreset("last7", now); r.Range? && r.to == now && AddDays(r.from, 6) == now
    ensures var r := RangeForPreset("last30", now); r.Range? && r.to == now && AddDays(r.from, 29) == now
  {
    RangeIsPreset("last3", now);
    RangeIsPreset("last7", now);
    RangeIsPreset("last30", now);
    LastDaysSpan(now, 3);
    LastDaysSpan(now, 7);
    LastDaysSpan(now, 30);
  }

  /** This month runs from its first to its last day, past today included. */
  lemma ThisMonthPreset(now: Date)
    requires Valid(now)
    ensures RangeForPreset("thisMonth", now)
            == Range(Date(now.year, now.month, 1), Date(now.year, now.month, DaysInMonth(now.year, now.month)))
  {
    RangeIsPreset("thisMonth", now);
  }

  /** Last month is the whole previous month; January goes back to December of the year before. */
  lemma LastMonthPreset(now: Date)
    requires Valid(now)
    ensures now.month == 1 ==> RangeForPreset("lastMonth", now) == Range(Date(now.year - 1, 12, 1), Date(now.year - 1, 12, 31))
    ensures now.month > 1 ==>
      RangeForPreset("lastMonth", now)
      == Range(Date(now.year, now.month - 1, 1), Date(now.year, now.month - 1, DaysInMonth(now.year, now.month - 1)))
  {
    RangeIsPreset("lastMonth", now);
  }

  /** Custom and every unknown key leave both bounds empty. */
  lemma OtherKeysUnset(key: string, now: Date)
    requires Valid(now)
    requires key !in {"today", "yesterday", "last3", "last7", "last30", "thisMonth", "lastMonth"}
    ensures RangeForPreset(key, now) == Unset
  {
  }

  /** Every preset range starts no later than it ends. */
  lemma PresetOrdered(key: string, now: Date)
    requires Valid(now)
    ensures RangeForPreset(key, now).Range? ==> NotAfter(RangeForPreset(key, now).from, RangeForPreset(key, now).to)
  {
    RangeIsPreset(key, now);
    PresetRangeOrdered(key, now);
  }

  /** Computing last month on 15 January 2024 gives December 2023. */
  lemma LastMonthInJanuary()
    ensures RangeForPreset("lastMonth", Date(2024, 1, 15)) == Range(Date(2023, 12, 1), Date(2023, 12, 31))
  {
    LastMonthPreset(Date(2024, 1, 15));
  }

  /** `compute` is refused when either bound is empty. */
  predicate ComputeAllowed(from: Option<Date>, to: Option<Date>)
  {
    from.Some? && to.Some?
  }

  /** `saveBatch` is refused without a result, or when its items are missing,
      not an array, or empty. */
  predicate SaveAllowed(result: Option<ComputeResult>)
  {
    result.Some? && result.value.items.Some? && |result.value.items.value| > 0
  }

  /** Compute needs both bounds; save needs a result whose items are a non-empty array. */
  lemma GuardsRefuse(d: Date, item: PayoutItem)
    ensures !ComputeAllowed(None, Some(d)) && !ComputeAllowed(Some(d), None) && ComputeAllowed(Some(d), Some(d))
    ensures !SaveAllowed(None)
    ensures !SaveAllowed(Some(ComputeResult(None)))
    ensures !SaveAllowed(Some(ComputeResult(Some([]))))
    ensures SaveAllowed(Some(ComputeResult(Some([item]))))
  {
  }

  /** The drawer's "force recalculated" daily salary, as written: 50 per unreplied chat. */
  function DrawerSalary(r: DailyRecord): real
  {
    DrawerPay(Coerce(r.conversations), Coerce(r.avgFirstResponse), Coerce(r.avgResponseTime), Coerce(r.unrepliedChats))
  }

  function DrawerPay(conv: real, first: real, resp: real, unr: real): real
  {
    var base := conv * 20.0;
    var combined := (first + resp) / 2.0;
    var late := if combined > 5.0 then Ceil((combined - 5.0) / 5.0) as real * 2000.0 else 0.0;
    var penalty := late + unr * 50.0;
    Max(base - penalty, 0.0)
  }

  /** The shared rule's final pay for a stored record. */
  function RuleSalary(r: DailyRecord): real
  {
    SalaryRule.Canonical(SALARY_CONFIG, r.conversations, r.avgFirstResponse, r.avgResponseTime, r.unrepliedChats).final
  }

  /** The drawer is the shared rule with the per-chat penalty at 50. */
  lemma DrawerIsRuleAtFifty(r: DailyRecord)
    ensures DrawerSalary(r) == SalaryRule.Canonical(SALARY_CONFIG.(unrepliedPenalty := 50.0),
      r.conversations, r.avgFirstResponse, r.avgResponseTime, r.unrepliedChats).final
  {
  }

  /** With no unreplied chats the drawer agrees with the rule; with a positive
      count it shows at least the rule's pay. */
  lemma DrawerVersusRule(r: DailyRecord)
    ensures Coerce(r.unrepliedChats) == 0.0 ==> DrawerSalary(r) == RuleSalary(r)
    ensures Coerce(r.unrepliedChats) >= 0.0 ==> DrawerSalary(r) >= RuleSalary(r)
  {
    DrawerIsRuleAtFifty(r);
    var conv, first, resp, unr := Coerce(r.conversations), Coerce(r.avgFirstResponse),
                                   Coerce(r.avgResponseTime), Coerce(r.unrepliedChats);
    if unr >= 0.0 {
      SalaryRule.FinalAntitoneInUnrepliedRate(SALARY_CONFIG, 50.0, conv, first, resp, unr);
    }
  }

  /** 1000 conversations, 7 and 9 minutes and 2 unreplied chats: the rule pays
      17000, the drawer shows 17900. */
  lemma DrawerUndercharges()
    ensures var r := DailyRecord(Num(1000.0), Num(7.0), Num(9.0), Num(2.0), Undefined);
      RuleSalary(r) == 17000.0 && DrawerSalary(r) == 17900.0
  {
    assert Ceil(3.0 / 5.0) == 1;
    SalaryRule.Scenarios();
  }

  /** The drawer with the per-chat penalty of the configuration. */
  function IntendedDrawerSalary(r: DailyRecord): real
  {
    IntendedDrawerPay(Coerce(r.conversations), Coerce(r.avgFirstResponse), Coerce(r.avgResponseTime), Coerce(r.unrepliedChats))
  }

  function IntendedDrawerPay(conv: real, first: real, resp: real, unr: real): real
  {
    var base := conv * 20.0;
    var combined := (first + resp) / 2.0;
    var late := if combined > 5.0 then Ceil((combined - 5.0) / 5.0) as real * 2000.0 else 0.0;
    var penalty := late + unr * 500.0;
    Max(base - penalty, 0.0)
  }

  lemma IntendedDrawerIsRule(r: DailyRecord)
    ensures IntendedDrawerSalary(r) == RuleSalary(r)
    ensures IntendedDrawerSalary(r) >= 0.0
  {
  }

  function FromField(r: Range): Option<Date>
  {
    if r.Range? then Some(r.from) else None
  }

  function ToField(r: Range): Option<Date>
  {
    if r.Range? then Some(r.to) else None
  }

  /** The screen's state: the chosen preset, the two date fields, the last
      computed result, and the expanded user with the records fetched for it. */
  class NotePayoutPage {
    var preset: string
    var from: Option<Date>
    var to: Option<Date>
    var result: Option<ComputeResult>
    var expandedUser: Option<string>
    var userRecords: seq<DailyRecord>

    /** The page opens on the "today" preset. */
    constructor (now: Date)
      requires Valid(now)
      ensures preset == "today" && from == Some(now) && to == Some(now)
      ensures result == None && expandedUser == None && userRecords == []
    {
      preset := "today";
      from := FromField(RangeForPreset("today", now));
      to := ToField(RangeForPreset("today", now));
      result := None;
      expandedUser := None;
      userRecords := [];
    }

    /** Choosing a preset, with the effect that follows: any preset but custom
        overwrites both fields with its range. */
    method SelectPreset(key: string, now: Date)
      requires Valid(now)
      modifies this`preset, this`from, this`to
      ensures preset == key
      ensures key != "custom" ==> from == FromField(PresetRange(key, now)) && to == ToField(PresetRange(key, now))
      ensures key == "custom" ==> from == old(from) && to == old(to)
    {
      preset := key;
      if key != "custom" {
        var r := RangeForPreset(key, now);
        RangeIsPreset(key, now);
        from := FromField(r);
        to := ToField(r);
      }
    }

    /** `compute`: refused without both bounds; otherwise a successful
        response replaces the result. Unlike the other payout screen, the
        expanded details are kept. */
    method Compute(response: Option<ComputeResult>) returns (refused: bool)
      modifies this`result
      ensures refused <==> !ComputeAllowed(from, to)
      ensures !refused && response.Some? ==> result == response
      ensures refused || response.None? ==> result == old(result)
    {
      refused := !ComputeAllowed(from, to);
      if !refused && response.Some? {
        result := response;
      }
    }

    /** Typing a bound; the two inputs are enabled only under the custom preset. */
    method SetRange(newFrom: Option<Date>, newTo: Option<Date>)
      requires preset == "custom"
      modifies this`from, this`to
      ensures from == newFrom && to == newTo
    {
      from := newFrom;
      to := newTo;
    }

    /** `saveBatch` posts the current bounds with the items, and only when
        there is something to save. */
    method SaveBatch() returns (posted: Option<SavePayload>)
      ensures SaveAllowed(result) ==> posted == Some(SavePayload(from, to, result.value.items.value))
      ensures !SaveAllowed(result) ==> posted == None
    {
      if SaveAllowed(result) {
        posted := Some(SavePayload(from, to, result.value.items.value));
      } else {
        posted := None;
      }
    }

    /** `viewUserDetails`: the user is expanded at once; the fetched records
        (None when the request fails, Some(None) when the response has no
        items) replace the shown ones. */
    method ViewUserDetails(userId: string, response: Option<Option<seq<DailyRecord>>>)
      modifies this`expandedUser, this`userRecords
      ensures expandedUser == Some(userId)
      ensures response.Some? ==> userRecords == response.value.GetOr([])
      ensures response.None? ==> userRecords == old(userRecords)
    {
      expandedUser := Some(userId);
      if response.Some? {
        userRecords := response.value.GetOr([]);
      }
    }

    /** The drawer's Close button collapses the user and empties its records. */
    method CloseDetails()
      modifies this`expandedUser, this`userRecords
      ensures expandedUser == None && userRecords == []
    {
      expandedUser := None;
      userRecords := [];
    }
  }

  /** Neither a preset change nor a typed bound clears the result, so a save
      after one posts the items computed for the old range under the new
      bounds: computed for today, then switched to yesterday. */
  method SaveAfterPresetChange(now: Date, items: seq<PayoutItem>) returns (posted: Option<SavePayload>)
    requires Valid(now) && items != []
    ensures posted == Some(SavePayload(Some(PrevDay(now)), Some(PrevDay(now)), items))
  {
    var page := new NotePayoutPage(now);
    var refused := page.Compute(Some(ComputeResult(Some(items))));
    page.SelectPreset("yesterday", now);
    posted := page.SaveBatch();
  }

  /** Under the custom preset the typed bounds can be cleared, and compute is
      then refused and leaves the result alone. */
  method ComputeWithClearedBound(now: Date, response: ComputeResult) returns (refused: bool)
    requires Valid(now)
    ensures refused
  {
    var page := new NotePayoutPage(now);
    page.SelectPreset("custom", now);
    page.SetRange(Some(now), None);
    refused := page.Compute(Some(response));
  }
}
