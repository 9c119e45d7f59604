/**
 * Best posting time analysis (機能2): the weekday × hour matrix of average
 * engagement rates of one account, written to 時間帯分析 as seven rows that
 * replace the account's previous ones, and read back for the UI.
 */
module TimeAnalysis {
  import opened Common
  import opened Store
  import Analytics
  import Settings

  const DayNames: seq<string> := ["日曜", "月曜", "火曜", "水曜", "木曜", "金曜", "土曜"]

  /** A post that enters the matrix: the account's, with a timestamp. */
  function Counted(accountId: string): PostRow -> bool
  {
    (r: PostRow) => r.accountId == accountId && r.timestamp.Some?
  }

  /** A post that falls in cell (weekday `d`, hour `h`). */
  predicate InCell(r: PostRow, accountId: string, d: int, h: int)
  {
    r.accountId == accountId && r.timestamp.Some?
    && Weekday(r.timestamp.value.day) == d && r.timestamp.value.hour == h
  }

  /** `sumMatrix[d][h]`: the rates (in hundredths) of the cell's posts added up. */
  function CellSum(rows: seq<PostRow>, accountId: string, d: int, h: int): int
  {
    if |rows| == 0 then 0
    else CellSum(rows[..|rows| - 1], accountId, d, h)
         + (if InCell(rows[|rows| - 1], accountId, d, h) then rows[|rows| - 1].erCenti else 0)
  }

  /** `cntMatrix[d][h]`: the number of the cell's posts. */
  function CellCount(rows: seq<PostRow>, accountId: string, d: int, h: int): nat
  {
    if |rows| == 0 then 0
    else CellCount(rows[..|rows| - 1], accountId, d, h) + (if InCell(rows[|rows| - 1], accountId, d, h) then 1 else 0)
  }

  /**
   * `Math.round(sum / cnt * 100) / 100` on rates kept in hundredths: the
   * integer nearest to the mean (halves up), and 0 for an empty cell.
   */
  function CellAverage(sum: int, count: nat): (r: int)
    ensures count == 0 ==> r == 0
    ensures count > 0 ==> sum as real / count as real - 0.5 < r as real <= sum as real / count as real + 0.5
  {
    if count > 0 then Round(sum as real / count as real) else 0
  }

  /** `avgMatrix`: 7 weekdays (Sunday first) by 24 hours. */
  function AverageMatrix(rows: seq<PostRow>, accountId: string): (m: seq<seq<int>>)
    ensures |m| == 7 && forall d :: 0 <= d < 7 ==> |m[d]| == 24
  {
    seq(7, d requires 0 <= d < 7 =>
      seq(24, h requires 0 <= h < 24 => CellAverage(CellSum(rows, accountId, d, h), CellCount(rows, accountId, d, h))))
  }

  /** The cell a counted post falls in, numbered `24 · weekday + hour`. */
  function CellOf(r: PostRow): nat
    requires r.timestamp.Some?
  {
    24 * Weekday(r.timestamp.value.day) + r.timestamp.value.hour
  }

  /** The counts of the first `n` cells added up. */
  function GridCount(rows: seq<PostRow>, accountId: string, n: nat): nat
  {
    if n == 0 then 0 else GridCount(rows, accountId, n - 1) + CellCount(rows, accountId, (n - 1) / 24, (n - 1) % 24)
  }

  lemma {:induction false} GridCountSnoc(rows: seq<PostRow>, x: PostRow, accountId: string, n: nat)
    ensures GridCount(rows + [x], accountId, n)
      == GridCount(rows, accountId, n) + (if Counted(accountId)(x) && CellOf(x) < n then 1 else 0)
  {
    assert (rows + [x])[..|rows|] == rows;
    if n > 0 {
      GridCountSnoc(rows, x, accountId, n - 1);
      var c := n - 1;
      assert InCell(x, accountId, c / 24, c % 24) <==> Counted(accountId)(x) && CellOf(x) == c;
    }
  }

  lemma {:induction false} GridCountEmpty(rows: seq<PostRow>, accountId: string, n: nat)
    requires rows == []
    ensures GridCount(rows, accountId, n) == 0
  {
    if n > 0 {
      GridCountEmpty(rows, accountId, n - 1);
    }
  }

  /** Every counted post lands in exactly one of the 168 cells: the cell counts add up to the post count. */
  lemma {:induction false} CellsPartitionPosts(rows: seq<PostRow>, accountId: string)
    ensures GridCount(rows, accountId, 7 * 24) == Count(rows, Counted(accountId))
  {
    if |rows| == 0 {
      GridCountEmpty(rows, accountId, 7 * 24);
    } else {
      var init := rows[..|rows| - 1];
      var x := rows[|rows| - 1];
      CellsPartitionPosts(init, accountId);
      if x.timestamp.Some? {
        assert CellOf(x) < 7 * 24;
      }
      assert rows == init + [x];
      GridCountSnoc(init, x, accountId, 7 * 24);
      FilterSnoc(init, x, Counted(accountId));
    }
  }

  /** The seven rows written for the account, Sunday first. */
  function MatrixRows(accountId: string, matrix: seq<seq<int>>): (r: seq<TimeRow>)
    requires |matrix| == 7
    ensures |r| == 7
  {
    seq(7, d requires 0 <= d < 7 => TimeRow(accountId, DayNames[d], matrix[d]))
  }

  function OtherAccount(accountId: string): TimeRow -> bool
  {
    (r: TimeRow) => r.accountId != accountId
  }

  datatype TimeOutcome = NoData(error: string) | Generated(matrix: seq<seq<int>>, postCount: nat)

  const NoRowsMessage := "データがありません"
  const NoAccountRowsMessage := "このアカウントのデータがありません"

  /** The rows the tally leaves: 時間帯分析 if it is there, an empty new sheet otherwise. */
  function RowsBefore(present: bool, rows: seq<TimeRow>): seq<TimeRow>
  {
    if present then rows else []
  }

  /** The header row is written only when the sheet holds nothing at all. */
  function HeadersAfter(headers: seq<string>, kept: seq<TimeRow>): seq<string>
  {
    if headers == [] && kept == [] then Settings.TimeHeaders else headers
  }

  /**
   * `generateTimeAnalysis` for the active account: without data nothing is
   * written; otherwise the account's rows of 時間帯分析 are deleted bottom-up
   * and the seven new rows appended, the header row written first when the
   * sheet is empty.
   */
  method GenerateTimeAnalysis(analytics: Sheet<PostRow>, timeSheet: Sheet<TimeRow>, accountId: string)
    returns (r: Result<TimeOutcome>)
    modifies timeSheet
    ensures !analytics.present ==> r == Err(Analytics.AnalyticsSheetMissingMessage)
    ensures analytics.present && analytics.rows == [] ==> r == Ok(NoData(NoRowsMessage))
    ensures analytics.present && analytics.rows != [] && Count(analytics.rows, Counted(accountId)) == 0 ==>
      r == Ok(NoData(NoAccountRowsMessage))
    ensures !(r.Ok? && r.value.Generated?) ==>
      timeSheet.rows == old(timeSheet.rows) && timeSheet.present == old(timeSheet.present)
      && timeSheet.headers == old(timeSheet.headers)
    ensures analytics.present && Count(analytics.rows, Counted(accountId)) > 0 ==>
      && r == Ok(Generated(AverageMatrix(analytics.rows, accountId), Count(analytics.rows, Counted(accountId))))
      && timeSheet.present
      && timeSheet.rows == Filter(RowsBefore(old(timeSheet.present), old(timeSheet.rows)), OtherAccount(accountId))
                           + MatrixRows(accountId, AverageMatrix(analytics.rows, accountId))
      && timeSheet.headers == HeadersAfter(if old(timeSheet.present) then old(timeSheet.headers) else [],
                                           Filter(RowsBefore(old(timeSheet.present), old(timeSheet.rows)), OtherAccount(accountId)))
  {
    if !analytics.present {
      return Err(Analytics.AnalyticsSheetMissingMessage);
    }
    var data := analytics.rows;
    if |data| == 0 {
      return Ok(NoData(NoRowsMessage));
    }
    var sums, counts, postCount := Tally(data, accountId);
    if postCount == 0 {
      return Ok(NoData(NoAccountRowsMessage));
    }
    var matrix := seq(7, d requires 0 <= d < 7 =>
      seq(24, h requires 0 <= h < 24 => CellAverage(sums[d][h], counts[d][h])));
    forall d | 0 <= d < 7
      ensures matrix[d] == AverageMatrix(data, accountId)[d]
    {
      assert forall h :: 0 <= h < 24 ==> matrix[d][h] == AverageMatrix(data, accountId)[d][h];
    }
    assert matrix == AverageMatrix(data, accountId);
    if !timeSheet.present {
      timeSheet.Insert([]);
    }
    var deleted := DeleteRowsBottomUp(timeSheet, OtherAccount(accountId));
    if timeSheet.headers == [] && timeSheet.rows == [] {
      timeSheet.SetHeaders(Settings.TimeHeaders);
    }
    timeSheet.AppendRows(MatrixRows(accountId, matrix));
    return Ok(Generated(matrix, postCount));
  }

  /** The tally loop: cell sums and counts, and the number of counted posts. */
  method Tally(rows: seq<PostRow>, accountId: string) returns (sums: seq<seq<int>>, counts: seq<seq<nat>>, postCount: nat)
    ensures |sums| == 7 && |counts| == 7
    ensures forall d :: 0 <= d < 7 ==> |sums[d]| == 24 && |counts[d]| == 24
    ensures forall d, h :: 0 <= d < 7 && 0 <= h < 24 ==>
      sums[d][h] == CellSum(rows, accountId, d, h) && counts[d][h] == CellCount(rows, accountId, d, h)
    ensures postCount == Count(rows, Counted(accountId))
  {
    sums := seq(7, d => seq(24, h => 0));
    counts := seq(7, d => seq(24, h => 0));
    postCount := 0;
    var i := 0;
    while i < |rows|
      invariant 0 <= i <= |rows|
      invariant |sums| == 7 && |counts| == 7
      invariant forall d :: 0 <= d < 7 ==> |sums[d]| == 24 && |counts[d]| == 24
      invariant forall d, h :: 0 <= d < 7 && 0 <= h < 24 ==>
        sums[d][h] == CellSum(rows[..i], accountId, d, h) && counts[d][h] == CellCount(rows[..i], accountId, d, h)
      invariant postCount == Count(rows[..i], Counted(accountId))
    {
      var row := rows[i];
      assert rows[..i + 1] == rows[..i] + [row];
      assert rows[..i + 1][..i] == rows[..i];
      FilterSnoc(rows[..i], row, Counted(accountId));
      if row.accountId == accountId && row.timestamp.Some? {
        var d := Weekday(row.timestamp.value.day);
        var h := row.timestamp.value.hour;
        sums := sums[d := sums[d][h := sums[d][h] + row.erCenti]];
        counts := counts[d := counts[d][h := counts[d][h] + 1]];
        postCount := postCount + 1;
      }
      i := i + 1;
    }
    assert rows[..i] == rows;
  }

  // ------------------------------------------------------------ reading back

  /** The 24 hour cells of a row; missing cells read as 0. */
  function ReadCells(cells: seq<int>): (r: seq<int>)
    ensures |r| == 24
    ensures |cells| == 24 ==> r == cells
  {
    seq(24, h requires 0 <= h < 24 => if h < |cells| then cells[h] else 0)
  }

  /** `matrix` of `getTimeAnalysisData`: the account's rows by weekday name, the lowest row winning. */
  function TimeDataOf(rows: seq<TimeRow>, accountId: string): map<string, seq<int>>
  {
    if |rows| == 0 then map[]
    else
      var m := TimeDataOf(rows[..|rows| - 1], accountId);
      var r := rows[|rows| - 1];
      if r.accountId == accountId && r.dayName != "" then m[r.dayName := ReadCells(r.cells)] else m
  }

  /** `getTimeAnalysisData`: the matrix and whether it has any row. */
  method GetTimeAnalysisData(timeSheet: Sheet<TimeRow>, accountId: string)
    returns (matrix: map<string, seq<int>>, hasData: bool)
    ensures matrix == if timeSheet.present then TimeDataOf(timeSheet.rows, accountId) else map[]
    ensures hasData <==> |matrix| > 0
  {
    matrix := map[];
    if !timeSheet.present || |timeSheet.rows| == 0 {
      return matrix, false;
    }
    var data := timeSheet.rows;
    var i := 0;
    while i < |data|
      invariant 0 <= i <= |data|
      invariant matrix == TimeDataOf(data[..i], accountId)
    {
      assert data[..i + 1][..i] == data[..i];
      if data[i].accountId == accountId && data[i].dayName != "" {
        matrix := matrix[data[i].dayName := ReadCells(data[i].cells)];
      }
      i := i + 1;
    }
    assert data[..i] == data;
    hasData := |matrix| > 0;
  }

  lemma {:induction false} TimeDataOfOthers(rows: seq<TimeRow>, accountId: string)
    requires forall i :: 0 <= i < |rows| ==> rows[i].accountId != accountId
    ensures TimeDataOf(rows, accountId) == map[]
  {
    if |rows| > 0 {
      TimeDataOfOthers(rows[..|rows| - 1], accountId);
    }
  }

  lemma {:induction false} TimeDataOfConcat(a: seq<TimeRow>, b: seq<TimeRow>, accountId: string)
    ensures TimeDataOf(a + b, accountId) == TimeDataOf(a, accountId) + TimeDataOf(b, accountId)
    decreases |b|
  {
    if |b| == 0 {
      assert a + b == a;
    } else {
      assert (a + b)[..|a + b| - 1] == a + b[..|b| - 1];
      assert (a + b)[|a + b| - 1] == b[|b| - 1];
      TimeDataOfConcat(a, b[..|b| - 1], accountId);
    }
  }

  /** Rows of the account under pairwise different, non-blank names read back as those names' cells. */
  lemma {:induction false} NamedRowsReadBack(rows: seq<TimeRow>, accountId: string, names: seq<string>, matrix: seq<seq<int>>)
    requires |rows| == |names| <= |matrix|
    requires forall d :: 0 <= d < |rows| ==> rows[d] == TimeRow(accountId, names[d], matrix[d])
    requires forall d :: 0 <= d < |names| ==> names[d] != "" && |matrix[d]| == 24
    requires forall d, e :: 0 <= d < e < |names| ==> names[d] != names[e]
    ensures forall x :: x in TimeDataOf(rows, accountId) <==> x in names
    ensures forall d :: 0 <= d < |names| ==> TimeDataOf(rows, accountId)[names[d]] == matrix[d]
    decreases |rows|
  {
    var k := |rows|;
    if k > 0 {
      var init := rows[..k - 1];
      var earlier := names[..k - 1];
      var day := names[k - 1];
      var m := TimeDataOf(rows, accountId);
      var pre := TimeDataOf(init, accountId);
      assert m == pre[day := matrix[k - 1]] by {
        TimeDataOfLast(rows, accountId, day, matrix[k - 1]);
      }
      assert (forall x :: x in pre <==> x in earlier)
        && forall d :: 0 <= d < |earlier| ==> pre[earlier[d]] == matrix[d]
      by {
        assert forall d :: 0 <= d < |init| ==> init[d] == TimeRow(accountId, earlier[d], matrix[d]);
        NamedRowsReadBack(init, accountId, earlier, matrix);
      }
      assert names == earlier + [day];
      forall d | 0 <= d < k ensures m[names[d]] == matrix[d] {
        if d < k - 1 {
          assert names[d] != day && earlier[d] == names[d];
        }
      }
    }
  }

  /** A last row of the account with a day name sets that day's cells. */
  lemma TimeDataOfLast(rows: seq<TimeRow>, accountId: string, day: string, cells: seq<int>)
    requires |rows| > 0 && rows[|rows| - 1] == TimeRow(accountId, day, cells)
    requires day != "" && |cells| == 24
    ensures TimeDataOf(rows, accountId) == TimeDataOf(rows[..|rows| - 1], accountId)[day := cells]
  {
  }

  /** The weekday names differ pairwise (already by their first character). */
  lemma DayNamesDistinct()
    ensures |DayNames| == 7
    ensures forall d :: 0 <= d < 7 ==> DayNames[d] != ""
    ensures forall d, e :: 0 <= d < e < 7 ==> DayNames[d] != DayNames[e]
  {
    var firsts := seq(7, d requires 0 <= d < 7 => DayNames[d][0]);
    assert firsts == ['日', '月', '火', '水', '木', '金', '土'];
    forall d, e | 0 <= d < e < 7 ensures DayNames[d] != DayNames[e] {
      assert firsts[d] != firsts[e];
    }
  }

  /** Rows of other accounts add nothing to an account's matrix. */
  lemma KeptRowsInvisible(kept: seq<TimeRow>, rows: seq<TimeRow>, accountId: string)
    requires forall i :: 0 <= i < |kept| ==> kept[i].accountId != accountId
    ensures TimeDataOf(kept + rows, accountId) == TimeDataOf(rows, accountId)
  {
    TimeDataOfConcat(kept, rows, accountId);
    TimeDataOfOthers(kept, accountId);
    var m := TimeDataOf(rows, accountId);
    assert map[] + m == m;
  }

  /**
   * What `generateTimeAnalysis` writes, `getTimeAnalysisData` reads back:
   * the seven weekdays of the new matrix and nothing else of the account.
   */
  lemma GeneratedReadsBack(kept: seq<TimeRow>, accountId: string, matrix: seq<seq<int>>)
    requires forall i :: 0 <= i < |kept| ==> kept[i].accountId != accountId
    requires |matrix| == 7 && forall d :: 0 <= d < 7 ==> |matrix[d]| == 24
    ensures forall x :: x in TimeDataOf(kept + MatrixRows(accountId, matrix), accountId) <==> x in DayNames
    ensures forall d :: 0 <= d < 7 ==>
      TimeDataOf(kept + MatrixRows(accountId, matrix), accountId)[DayNames[d]] == matrix[d]
  {
    var rows := MatrixRows(accountId, matrix);
    KeptRowsInvisible(kept, rows, accountId);
    assert forall d :: 0 <= d < 7 ==> rows[d] == TimeRow(accountId, DayNames[d], matrix[d]);
    DayNamesDistinct();
    NamedRowsReadBack(rows, accountId, DayNames, matrix);
  }
}
