/** What the payout-compute endpoint returns, as the payout screens read it. */
module PayoutData {
  import opened Values
  import opened Calendar

  /** One day of a user's breakdown, shown as it is. */
  datatype BreakdownDay = BreakdownDay(date: string, finalSalary: Value)

  /** A user's aggregate; `breakdown` may be missing. */
  datatype PayoutItem = PayoutItem(user: string, breakdown: Option<seq<BreakdownDay>>)

  /** The response; `items` is None when it is missing or not an array. */
  datatype ComputeResult = ComputeResult(items: Option<seq<PayoutItem>>)

  /** The body of `/api/payout/save`: the two date fields as they are at the
      time of saving, and the items of the last computed result. */
  datatype SavePayload = SavePayload(from: Option<Date>, to: Option<Date>, items: seq<PayoutItem>)
}

/** The manual payout-compute screen
    (app/dduhfhjdbnschdbbejfhiwdknsbciwuuddbsbcihefihjnnjwwebi/page.jsx): its
    own copy of the date-range presets, the compute and save guards, the
    lookup of one user's breakdown, and the page state those handlers set. */
module PayoutCompute {
  import opened Values
  import opened Calendar
  import opened PayoutData
  import NotePage

  /** `startOfMonth(date)`: `new Date(year, month, 1)`. */
  function StartOfMonth(date: Date): Date
  {
    MakeDate(date.year, date.month - 1, 1)
  }

  /** `endOfMonth(date)`: day 0 of the next month. */
  function EndOfMonth(date: Date): Date
  {
    MakeDate(date.year, date.month - 1 + 1, 0)
  }

  function RangeForPreset(key: string, now: Date): Range
    requires Valid(now)
  {
    if key == "today" then Range(now, now)
    else if key == "yesterday" then
      var y := SetDate(now, now.day - 1);
      Range(y, y)
    else if key == "last3" then Range(SetDate(now, now.day - 2), now)
    else if key == "last7" then Range(SetDate(now, now.day - 6), now)
    else if key == "last30" then Range(SetDate(now, now.day - 29), now)
    else if key == "thisMonth" then Range(StartOfMonth(now), EndOfMonth(now))
    else if key == "lastMonth" then
      var prev := MakeDate(now.year, now.month - 1 - 1, 1);
      Range(StartOfMonth(prev), EndOfMonth(prev))
    else Unset
  }

  /** `endOfMonth` gives the last day of the date's month. */
  lemma EndOfMonthIsLastDay(date: Date)
    requires Valid(date)
    ensures EndOfMonth(date) == Date(date.year, date.month, DaysInMonth(date.year, date.month))
    ensures StartOfMonth(date) == Date(date.year, date.month, 1)
  {
    DayZeroOfNextMonth(date.year, date.month - 1);
    FirstOfMonth(date.year, date.month - 1);
  }

  /** The first of the previous month, normalised: January goes to December of the year before. */
  lemma PreviousMonthStart(now: Date)
    requires Valid(now)
    ensures now.month == 1 ==> MakeDate(now.year, now.month - 1 - 1, 1) == Date(now.year - 1, 12, 1)
    ensures now.month > 1 ==> MakeDate(now.year, now.month - 1 - 1, 1) == Date(now.year, now.month - 1, 1)
  {
    if now.month == 1 {
      FirstOfMonthBeforeJanuary(now.year);
    } else {
      FirstOfMonth(now.year, now.month - 2);
    }
  }

  /** This copy gives the range each preset stands for. */
  lemma RangeIsPreset(key: string, now: Date)
    requires Valid(now)
    ensures RangeForPreset(key, now) == PresetRange(key, now)
  {
    if key == "yesterday" {
      YesterdayIsPreset(now);
    } else if key == "last3" {
      ShiftIsPreset(key, now, 2);
    } else if key == "last7" {
      ShiftIsPreset(key, now, 6);
    } else if key == "last30" {
      ShiftIsPreset(key, now, 29);
    } else if key == "thisMonth" {
      ThisMonthIsPreset(now);
    } else if key == "lastMonth" {
      LastMonthIsPreset(now);
    }
  }

  lemma YesterdayIsPreset(now: Date)
    requires Valid(now)
    ensures RangeForPreset("yesterday", now) == PresetRange("yesterday", now)
  {
    SetDateShift(now, 1);
    assert AddDays(now, -1) == AddDays(PrevDay(now), 0);
  }

  lemma ShiftIsPreset(key: string, now: Date, k: nat)
    requires Valid(now)
    requires (key == "last3" && k == 2) || (key == "last7" && k == 6) || (key == "last30" && k == 29)
    ensures RangeForPreset(key, now) == PresetRange(key, now)
  {
    SetDateShift(now, k);
  }

  lemma ThisMonthIsPreset(now: Date)
    requires Valid(now)
    ensures RangeForPreset("thisMonth", now) == PresetRange("thisMonth", now)
  {
      EndOfMonthIsLastDay(now);
  }

  lemma LastMonthIsPreset(now: Date)
    requires Valid(now)
    ensures RangeForPreset("lastMonth", now) == PresetRange("lastMonth", now)
  {
      PreviousMonthStart(now);
      var prev := MakeDate(now.year, now.month - 1 - 1, 1);
      EndOfMonthIsLastDay(prev);
  }

  /** Both screens' copies of the preset resolver agree on every key and date. */
  lemma CopiesAgree(key: string, now: Date)
    requires Valid(now)
    ensures RangeForPreset(key, now) == NotePage.RangeForPreset(key, now)
  {
    RangeIsPreset(key, now);
    NotePage.RangeIsPreset(key, now);
  }

  /** Custom and every unknown key leave both bounds empty. */
  lemma OtherKeysUnset(key: string, now: Date)
    requires Valid(now)
    requires key !in {"today", "yesterday", "last3", "last7", "last30", "thisMonth", "lastMonth"}
    ensures RangeForPreset(key, now) == Unset
  {
  }

  /** `compute` is refused when either bound is empty. */
  predicate ComputeAllowed(from: Option<Date>, to: Option<Date>)
  {
    from.Some? && to.Some?
  }

  /** `saveBatch` is refused unless the result has at least one item. */
  predicate SaveAllowed(result: Option<ComputeResult>)
  {
    result.Some? && result.value.items.Some? && |result.value.items.value| > 0
  }

  /** Both screens guard compute and save alike. */
  lemma GuardsAgree(from: Option<Date>, to: Option<Date>, result: Option<ComputeResult>)
    ensures ComputeAllowed(from, to) <==> NotePage.ComputeAllowed(from, to)
    ensures SaveAllowed(result) <==> NotePage.SaveAllowed(result)
    ensures !SaveAllowed(Some(ComputeResult(Some([]))))
  {
  }

  /** `result?.items?.find(u => u.user === userId)?.breakdown || []`. */
  function UserBreakdown(items: seq<PayoutItem>, userId: string): (r: seq<BreakdownDay>)
    ensures (forall i :: 0 <= i < |items| ==> items[i].user != userId) ==> r == []
    ensures forall i :: 0 <= i < |items| && items[i].user == userId
              && (forall j :: 0 <= j < i ==> items[j].user != userId)
              ==> r == items[i].breakdown.GetOr([])
  {
    if items == [] then []
    else if items[0].user == userId then items[0].breakdown.GetOr([])
    else UserBreakdown(items[1..], userId)
  }

  function ResultBreakdown(result: Option<ComputeResult>, userId: string): seq<BreakdownDay>
  {
    if result.Some? && result.value.items.Some? then UserBreakdown(result.value.items.value, userId) else []
  }

  /** The range a preset writes into the two date fields; Unset clears both. */
  function FromField(r: Range): Option<Date>
  {
    if r.Range? then Some(r.from) else None
  }

  function ToField(r: Range): Option<Date>
  {
    if r.Range? then Some(r.to) else None
  }

  /** The screen's state: the chosen preset, the two date fields, the last
      computed result and the expanded user's breakdown. */
  class PayoutComputePage {
    var preset: string
    var from: Option<Date>
    var to: Option<Date>
    var result: Option<ComputeResult>
    var expandedUser: Option<string>
    var userRecords: seq<BreakdownDay>

    /** The page opens on the "today" preset. */
    constructor (now: Date)
      requires Valid(now)
      ensures preset == "today" && from == Some(now) && to == Some(now)
      ensures result == None && expandedUser == None && userRecords == []
    {
      preset := "today";
      from := FromField(RangeForPreset("today", now));
      to := ToField(RangeForPreset("today", now));
      result := None;
      expandedUser := None;
      userRecords := [];
    }

    /** Choosing a preset other than custom overwrites both fields with its range. */
    method SelectPreset(key: string, now: Date)
      requires Valid(now)
      modifies this`preset, this`from, this`to
      ensures preset == key
      ensures key != "custom" ==> from == FromField(PresetRange(key, now)) && to == ToField(PresetRange(key, now))
      ensures key == "custom" ==> from == old(from) && to == old(to)
    {
      preset := key;
      if key != "custom" {
        var r := RangeForPreset(key, now);
        RangeIsPreset(key, now);
        from := FromField(r);
        to := ToField(r);
      }
    }

    /** Typing a bound; the two inputs are enabled only under the custom preset. */
    method SetRange(newFrom: Option<Date>, newTo: Option<Date>)
      requires preset == "custom"
      modifies this`from, this`to
      ensures from == newFrom && to == newTo
    {
      from := newFrom;
      to := newTo;
    }

    /** `compute`: refused without both bounds; otherwise the endpoint's
        response (None when the request fails) replaces the result and closes
        the details. */
    method Compute(response: Option<ComputeResult>) returns (refused: bool)
      modifies this`result, this`expandedUser, this`userRecords
      ensures refused <==> !ComputeAllowed(from, to)
      ensures refused || response.None? ==>
        result == old(result) && expandedUser == old(expandedUser) && userRecords == old(userRecords)
      ensures !refused && response.Some? ==> result == response && expandedUser == None && userRecords == []
    {
      refused := !ComputeAllowed(from, to);
      if !refused && response.Some? {
        result := response;
        expandedUser := None;
        userRecords := [];
      }
    }

    /** `saveBatch` posts the current bounds with the items, and only when
        there is something to save. */
    method SaveBatch() returns (posted: Option<SavePayload>)
      ensures SaveAllowed(result) ==> posted == Some(SavePayload(from, to, result.value.items.value))
      ensures !SaveAllowed(result) ==> posted == None
    {
      if SaveAllowed(result) {
        posted := Some(SavePayload(from, to, result.value.items.value));
      } else {
        posted := None;
      }
    }

    /** `viewUserDetails`: shows the breakdown of the first item for that user. */
    method ViewUserDetails(userId: string)
      modifies this`expandedUser, this`userRecords
      ensures expandedUser == Some(userId)
      ensures userRecords == ResultBreakdown(result, userId)
    {
      expandedUser := Some(userId);
      userRecords := ResultBreakdown(result, userId);
    }

    /** The drawer's Close button collapses the user; the breakdown is kept. */
    method CloseDetails()
      modifies this`expandedUser
      ensures expandedUser == None
    {
      expandedUser := None;
    }
  }
}
