/** The admin upload screen (app/Irrp5QQCN2J2sXrMpNOnFH/page.jsx): pending
    input rows edited one at a time, their running payout total, the upload
    validation, the selection of saved records, their sort order and the
    pagination arithmetic. */
module AdminUpload {
  import opened Values
  import opened Arith
  import opened SalaryConfig
  import opened Seqs
  import SalaryRule
  import AppSalaryCalculator

  /** `calcSalary`'s result; its combined time is the string `toFixed(2)`,
      here the rounded number. */
  datatype RowSalary = RowSalary(combined: real, final: real)

  function CalcSalary(conversations: Value, avgFirst: Value, avgResp: Value, unreplied: Value): RowSalary
  {
    CalcPay(Coerce(conversations), Coerce(avgFirst), Coerce(avgResp), Coerce(unreplied))
  }

  /** `calcSalary` after coercion, reading the constants from SALARY_CONFIG. */
  function CalcPay(conv: real, first: real, resp: real, unr: real): RowSalary
  {
    var base := conv * SALARY_CONFIG.payPerConversation;
    var combined := (first + resp) / 2.0;
    var late := if combined > SALARY_CONFIG.responseTimeThreshold
      then Ceil((combined - SALARY_CONFIG.responseTimeThreshold) / 5.0) as real * SALARY_CONFIG.lateResponsePenalty
      else 0.0;
    var penalty := late + unr * SALARY_CONFIG.unrepliedPenalty;
    RowSalary(Round2(combined), Max(base - penalty, 0.0))
  }

  /** `calcSalary` is the shared rule and gives the same final as `computeSalary`. */
  lemma CalcSalaryIsRule(conversations: Value, avgFirst: Value, avgResp: Value, unreplied: Value)
    ensures var s := CalcSalary(conversations, avgFirst, avgResp, unreplied);
      var d := SalaryRule.Canonical(SALARY_CONFIG, conversations, avgFirst, avgResp, unreplied);
      && s.final == d.final
      && s.combined == Round2(d.combined)
      && s.final == AppSalaryCalculator.ComputeSalary(conversations, avgFirst, avgResp, unreplied).final
  {
    var conv, first, resp, unr := Coerce(conversations), Coerce(avgFirst), Coerce(avgResp), Coerce(unreplied);
    CalcPayIsRule(conv, first, resp, unr);
    AppSalaryCalculator.PayIsRule(conv, first, resp, unr);
  }

  lemma CalcPayIsRule(conv: real, first: real, resp: real, unr: real)
    ensures var s := CalcPay(conv, first, resp, unr);
      var d := SalaryRule.DailyPay(SALARY_CONFIG, conv, first, resp, unr);
      s.final == d.final && s.combined == Round2(d.combined)
  {
  }

  /** An input row; every metric is the text of its input box. */
  datatype Row = Row(id: string, userId: string, conversations: string, avgFirst: string, avgResp: string, unreplied: string)

  /** The fields `updateRow` is called with. */
  datatype Field = UserId | Conversations | AvgFirst | AvgResp | Unreplied

  function FieldOf(row: Row, f: Field): string
  {
    match f
    case UserId => row.userId
    case Conversations => row.conversations
    case AvgFirst => row.avgFirst
    case AvgResp => row.avgResp
    case Unreplied => row.unreplied
  }

  /** `{ ...row, [field]: value }`. */
  function SetField(row: Row, f: Field, v: string): (r: Row)
    ensures r.id == row.id
    ensures FieldOf(r, f) == v
    ensures forall g :: g != f ==> FieldOf(r, g) == FieldOf(row, g)
  {
    match f
    case UserId => row.(userId := v)
    case Conversations => row.(conversations := v)
    case AvgFirst => row.(avgFirst := v)
    case AvgResp => row.(avgResp := v)
    case Unreplied => row.(unreplied := v)
  }

  /** `createRow`, with the random UUID passed in. */
  function CreateRow(freshId: string): (r: Row)
    ensures r.id == freshId
    ensures forall f :: FieldOf(r, f) == ""
  {
    Row(freshId, "", "", "", "", "")
  }

  /** A row's salary as the row list and the total show it. */
  function RowFinal(row: Row): real
  {
    CalcSalary(Text(row.conversations), Text(row.avgFirst), Text(row.avgResp), Text(row.unreplied)).final
  }

  /** `updateRow(id, field, value)` on the row list. */
  function UpdateRows(rows: seq<Row>, id: string, f: Field, v: string): (r: seq<Row>)
    ensures |r| == |rows|
    ensures forall i :: 0 <= i < |rows| && rows[i].id != id ==> r[i] == rows[i]
    ensures forall i :: 0 <= i < |rows| && rows[i].id == id ==>
      r[i].id == id && FieldOf(r[i], f) == v && (forall g :: g != f ==> FieldOf(r[i], g) == FieldOf(rows[i], g))
  {
    seq(|rows|, i requires 0 <= i < |rows| => if rows[i].id == id then SetField(rows[i], f, v) else rows[i])
  }

  function KeepOthers(id: string): Row -> bool
  {
    (r: Row) => r.id != id
  }

  /** `removeRow(id)` on the row list. */
  function RemoveRows(rows: seq<Row>, id: string): seq<Row>
  {
    Filter(rows, KeepOthers(id))
  }

  /** Removing drops every row with that id, keeps every other row, and keeps
      their order: removing from a concatenation removes from each part. */
  lemma RemoveRowsMeaning(rows: seq<Row>, more: seq<Row>, id: string)
    ensures forall r :: r in RemoveRows(rows, id) ==> r.id != id && r in rows
    ensures forall r :: r in rows && r.id != id ==> r in RemoveRows(rows, id)
    ensures RemoveRows(rows + more, id) == RemoveRows(rows, id) + RemoveRows(more, id)
    ensures (forall i :: 0 <= i < |rows| ==> rows[i].id != id) ==> RemoveRows(rows, id) == rows
  {
    FilterConcat(rows, more, KeepOthers(id));
    if forall i :: 0 <= i < |rows| ==> rows[i].id != id {
      FilterKeepsAll(rows, KeepOthers(id));
    }
  }

  /** `totalPayout`: the sum of every row's final salary. */
  function TotalPayout(rows: seq<Row>): real
  {
    SumOf(rows, RowFinal)
  }

  /** The total is 0 for no rows, never negative, and grows by each added row's salary. */
  lemma TotalPayoutMeaning(rows: seq<Row>, row: Row)
    ensures TotalPayout([]) == 0.0
    ensures TotalPayout(rows) >= 0.0
    ensures TotalPayout(rows + [row]) == TotalPayout(rows) + RowFinal(row)
  {
    forall i | 0 <= i < |rows| ensures RowFinal(rows[i]) >= 0.0 {
      CalcSalaryIsRule(Text(rows[i].conversations), Text(rows[i].avgFirst), Text(rows[i].avgResp), Text(rows[i].unreplied));
    }
    SumOfNonNegative(rows, RowFinal);
    assert (rows + [row])[..|rows + [row]| - 1] == rows;
  }

  /** A freshly added row is empty and adds nothing to the total. */
  lemma AddRowKeepsTotal(rows: seq<Row>, freshId: string)
    ensures TotalPayout(rows + [CreateRow(freshId)]) == TotalPayout(rows)
  {
    TotalPayoutMeaning(rows, CreateRow(freshId));
    assert ParseNumber("") == Some(0.0);
  }

  /** What goes wrong with an upload. */
  datatype UploadError = NoRows | UserRequired

  /** The body of one `/api/daily/save` request: the row's user, the page's
      date field and the row's coerced metrics. */
  datatype SaveRequest = SaveRequest(userId: string, date: string, conversations: real,
                                     avgFirstResponse: real, avgResponseTime: real, unrepliedChats: real)

  function RequestOf(row: Row, date: string): SaveRequest
  {
    SaveRequest(row.userId, date, Coerce(Text(row.conversations)), Coerce(Text(row.avgFirst)),
                Coerce(Text(row.avgResp)), Coerce(Text(row.unreplied)))
  }

  /** The requests for a list of rows, in order, all under the same date. */
  function RequestsOf(rows: seq<Row>, date: string): (r: seq<SaveRequest>)
    ensures |r| == |rows|
    ensures forall i :: 0 <= i < |r| ==> r[i].userId == rows[i].userId && r[i].date == date
  {
    seq(|rows|, i requires 0 <= i < |rows| => RequestOf(rows[i], date))
  }

  /** `uploadAll`'s loop, with every request assumed to succeed: it refuses an
      empty list, and otherwise sends the rows in order until the first one
      without a user, where it stops with an error; `sent` rows were posted. */
  method PlanUpload(rows: seq<Row>) returns (err: Option<UploadError>, sent: nat)
    ensures err == Some(NoRows) <==> rows == []
    ensures sent <= |rows|
    ensures rows == [] ==> sent == 0
    ensures err == None <==> rows != [] && forall i :: 0 <= i < |rows| ==> rows[i].userId != ""
    ensures err == None ==> sent == |rows|
    ensures err == Some(UserRequired) ==>
      sent < |rows| && rows[sent].userId == "" && forall i :: 0 <= i < sent ==> rows[i].userId != ""
  {
    if rows == [] {
      return Some(NoRows), 0;
    }
    var i := 0;
    while i < |rows|
      invariant 0 <= i <= |rows|
      invariant forall j :: 0 <= j < i ==> rows[j].userId != ""
    {
      if rows[i].userId == "" {
        return Some(UserRequired), i;
      }
      i := i + 1;
    }
    err, sent := None, i;
  }

  /** `toggleSelect(id, checked)`: checking appends, with no duplicate check;
      unchecking drops every occurrence. */
  function Toggle(selected: seq<string>, id: string, checked: bool): seq<string>
  {
    if checked then selected + [id] else Filter(selected, (x: string) => x != id)
  }

  lemma ToggleMeaning(selected: seq<string>, id: string)
    ensures Toggle(selected, id, true) == selected + [id]
    ensures multiset(Toggle(selected, id, true))[id] == multiset(selected)[id] + 1
    ensures id !in Toggle(selected, id, false)
    ensures forall x :: x != id ==> (x in Toggle(selected, id, false) <==> x in selected)
  {
  }

  /** A saved daily record as the records list holds it; the timestamps are
      milliseconds, and a missing or empty `createdAt` is None. */
  datatype SavedRecord = SavedRecord(id: string, createdAt: Option<int>, date: int)

  /** `new Date(a.createdAt || a.date)`. */
  function SortKey(r: SavedRecord): int
  {
    r.createdAt.GetOr(r.date)
  }

  function NegatedKey(r: SavedRecord): int
  {
    -SortKey(r)
  }

  /** `sortedRecords`: newest first for "newest", oldest first for any other order. */
  function SortedRecords(records: seq<SavedRecord>, sortOrder: string): (r: seq<SavedRecord>)
    ensures multiset(r) == multiset(records) && |r| == |records|
    ensures sortOrder == "newest" ==> forall i, j :: 0 <= i < j < |r| ==> SortKey(r[i]) >= SortKey(r[j])
    ensures sortOrder != "newest" ==> forall i, j :: 0 <= i < j < |r| ==> SortKey(r[i]) <= SortKey(r[j])
  {
    if sortOrder == "newest" then SortDesc(records, SortKey)
    else
      var s := SortDesc(records, NegatedKey);
      assert forall i, j :: 0 <= i < j < |s| ==> NegatedKey(s[i]) >= NegatedKey(s[j]);
      s
  }

  function IdsOf(records: seq<SavedRecord>): (ids: seq<string>)
    ensures |ids| == |records|
    ensures forall i :: 0 <= i < |records| ==> ids[i] == records[i].id
  {
    if records == [] then [] else [records[0].id] + IdsOf(records[1..])
  }

  /** `toggleSelectAll(checked)`. */
  function SelectAll(sorted: seq<SavedRecord>, checked: bool): seq<string>
  {
    if checked then IdsOf(sorted) else []
  }

  /** `allSelected` only compares the two lengths. */
  predicate AllSelected(sorted: seq<SavedRecord>, selected: seq<string>)
  {
    |sorted| > 0 && |selected| == |sorted|
  }

  /** Select-all selects every record and marks the list as all selected when
      it is not empty; clear-all selects nothing. */
  lemma SelectAllMeaning(sorted: seq<SavedRecord>)
    ensures forall r :: r in sorted ==> r.id in SelectAll(sorted, true)
    ensures forall x :: x in SelectAll(sorted, true) ==> exists r :: r in sorted && r.id == x
    ensures SelectAll(sorted, false) == []
    ensures sorted != [] ==> AllSelected(sorted, SelectAll(sorted, true))
    ensures !AllSelected(sorted, SelectAll(sorted, false))
  {
    var ids := SelectAll(sorted, true);
    forall r | r in sorted ensures r.id in ids {
      var i :| 0 <= i < |sorted| && sorted[i] == r;
      assert ids[i] == r.id;
    }
    forall x | x in ids ensures exists r :: r in sorted && r.id == x {
      var i :| 0 <= i < |ids| && ids[i] == x;
      assert sorted[i] in sorted && sorted[i].id == x;
    }
  }

  /** Because only lengths are compared, checking the same record twice in a
      list of two reads as all selected. */
  lemma AllSelectedByCount()
    ensures var recs := [SavedRecord("a", None, 0), SavedRecord("b", None, 0)];
      AllSelected(recs, Toggle(Toggle([], "a", true), "a", true)) && "b" !in Toggle(Toggle([], "a", true), "a", true)
  {
  }

  const REC_PAGE_SIZE: int := 10

  /** `hasMore`. */
  predicate HasMore(page: int, total: int)
  {
    page * REC_PAGE_SIZE < total
  }

  /** The previous-page button: `Math.max(1, recPage - 1)`. */
  function PrevPage(page: int): (p: int)
    ensures p >= 1
    ensures page >= 2 ==> p == page - 1
    ensures page <= 1 ==> p == 1
  {
    if page - 1 >= 1 then page - 1 else 1
  }

  /** "Page x of `Math.ceil(recTotal / recPageSize)`". */
  function PageCount(total: int): (n: int)
    ensures (n - 1) * REC_PAGE_SIZE < total <= n * REC_PAGE_SIZE
  {
    Ceil(total as real / REC_PAGE_SIZE as real)
  }

  /** There is a next page exactly when the current page is below the page count. */
  lemma HasMoreIffBeforeLastPage(page: int, total: int)
    ensures HasMore(page, total) <==> page < PageCount(total)
  {
    var n := PageCount(total);
    if HasMore(page, total) {
      assert page * REC_PAGE_SIZE < n * REC_PAGE_SIZE;
    } else {
      assert (n - 1) * REC_PAGE_SIZE < page * REC_PAGE_SIZE;
    }
  }

  /** The screen's state. */
  class AdminUploadPage {
    var rows: seq<Row>
    var selectedIds: seq<string>
    var records: seq<SavedRecord>
    var recPage: int
    var recTotal: int
    var sortOrder: string
    var date: string

    /** The date field starts on today's date, as `toISOString().slice(0, 10)` gives it. */
    constructor (today: string)
      ensures rows == [] && selectedIds == [] && records == []
      ensures recPage == 1 && recTotal == 0 && sortOrder == "newest" && date == today
    {
      date := today;
      rows := [];
      selectedIds := [];
      records := [];
      recPage := 1;
      recTotal := 0;
      sortOrder := "newest";
    }

    function Sorted(): seq<SavedRecord>
      reads this
    {
      SortedRecords(records, sortOrder)
    }

    function Total(): real
      reads this
    {
      TotalPayout(rows)
    }

    /** `addRow`: one empty row at the end, the others as they were. */
    method AddRow(freshId: string)
      modifies this`rows
      ensures rows == old(rows) + [CreateRow(freshId)]
      ensures Total() == old(Total())
    {
      AddRowKeepsTotal(rows, freshId);
      rows := rows + [CreateRow(freshId)];
    }

    method UpdateRow(id: string, f: Field, v: string)
      modifies this`rows
      ensures rows == UpdateRows(old(rows), id, f, v)
    {
      rows := UpdateRows(rows, id, f, v);
    }

    method RemoveRow(id: string)
      modifies this`rows
      ensures rows == RemoveRows(old(rows), id)
      ensures forall r :: r in rows ==> r.id != id
    {
      RemoveRowsMeaning(rows, [], id);
      rows := RemoveRows(rows, id);
    }

    method ToggleSelect(id: string, checked: bool)
      modifies this`selectedIds
      ensures selectedIds == Toggle(old(selectedIds), id, checked)
    {
      selectedIds := Toggle(selectedIds, id, checked);
    }

    method ToggleSelectAll(checked: bool)
      modifies this`selectedIds
      ensures selectedIds == SelectAll(Sorted(), checked)
      ensures checked && records != [] ==> AllSelected(Sorted(), selectedIds)
    {
      SelectAllMeaning(Sorted());
      selectedIds := SelectAll(Sorted(), checked);
    }

    /** `loadRecords` once the response has arrived: the page's items, page
        number and total replace the old ones and the selection is cleared. */
    method RecordsLoaded(items: seq<SavedRecord>, page: int, total: int)
      modifies this`records, this`recPage, this`recTotal, this`selectedIds
      ensures records == items && recPage == page && recTotal == total && selectedIds == []
    {
      records := items;
      recPage := page;
      recTotal := total;
      selectedIds := [];
    }

    /** The date input: every later upload posts under this date. */
    method PickDate(d: string)
      modifies this`date
      ensures date == d
    {
      date := d;
    }

    /** `uploadAll`, every request succeeding: the validated requests are
        posted and the rows cleared; on an error the rows stay. */
    method UploadAll() returns (err: Option<UploadError>, posts: seq<SaveRequest>)
      modifies this`rows
      ensures err == None <==> old(rows) != [] && forall i :: 0 <= i < |old(rows)| ==> old(rows)[i].userId != ""
      ensures err == None ==> posts == RequestsOf(old(rows), date) && rows == []
      ensures err != None ==> rows == old(rows)
      ensures err == Some(NoRows) ==> posts == []
      ensures err == Some(UserRequired) ==>
        && |posts| < |rows| && rows[|posts|].userId == "" && posts == RequestsOf(rows[..|posts|], date)
        && forall i :: 0 <= i < |posts| ==> rows[i].userId != ""
    {
      var sent;
      err, sent := PlanUpload(rows);
      posts := RequestsOf(rows[..sent], date);
      if err == None {
        assert rows[..sent] == rows;
        rows := [];
      }
    }
  }
}
