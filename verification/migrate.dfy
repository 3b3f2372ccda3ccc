/** The one-off import of the video list from a spreadsheet into the video
    table: each data row becomes a video record by fixed columns, incomplete
    rows are skipped, and every insert is counted as added or failed. */
module Migrate {
  import opened Wrappers
  import opened Seqs

  /** A cell value as the spreadsheet reader returns it. */
  datatype Cell = Empty | Text(text: string) | Number(value: int) | Flag(flag: bool)

  /** Python truthiness of a cell value. */
  predicate Truthy(c: Cell) {
    match c
    case Empty => false
    case Text(t) => t != []
    case Number(v) => v != 0
    case Flag(b) => b
  }

  /** The record inserted for one row; `kind` is the `type` column. */
  datatype VideoData = VideoData(title: Cell, url: Cell, category: Cell, kind: Cell, description: Cell, isActive: bool)

  /** `row[i] if len(row) > i else ''`. */
  function CellOr(row: seq<Cell>, i: nat): Cell {
    if i < |row| then row[i] else Text("")
  }

  /** The column mapping: title, url, category and type from columns 1 to 4,
      description from column 6; always active. */
  function VideoFromRow(row: seq<Cell>): VideoData {
    VideoData(CellOr(row, 1), CellOr(row, 2), CellOr(row, 3), CellOr(row, 4), CellOr(row, 6), true)
  }

  /** A row of three or more cells gives its own title and url; category,
      type and description come from their columns when the row reaches
      them and are empty text otherwise; the record is always active. */
  lemma VideoFromRowColumns(row: seq<Cell>)
    requires |row| >= 3
    ensures var v := VideoFromRow(row);
            && v.title == row[1] && v.url == row[2]
            && v.category == (if |row| > 3 then row[3] else Text(""))
            && v.kind == (if |row| > 4 then row[4] else Text(""))
            && v.description == (if |row| > 6 then row[6] else Text(""))
            && v.isActive
  {
  }

  /** Columns 0 and 5, and every column after 6, are never read. */
  lemma UnreadColumnsIgnored(row: seq<Cell>, i: nat, c: Cell)
    requires i < |row| && (i == 0 || i == 5 || i > 6)
    ensures VideoFromRow(row[i := c]) == VideoFromRow(row)
  {
  }

  /** One insert call: the spreadsheet row number and the record. */
  datatype Insert = Insert(rowNumber: nat, video: VideoData)

  /** The insert a row leads to, if any: rows shorter than three cells and
      rows with a falsy title or url are skipped. */
  function RowInsert(rowNumber: nat, row: seq<Cell>): (r: Option<Insert>)
    ensures r.Some? <==> |row| >= 3 && Truthy(row[1]) && Truthy(row[2])
    ensures r.Some? ==> r.value == Insert(rowNumber, VideoFromRow(row))
  {
    if row == [] || |row| < 3 then None
    else
      var video := VideoFromRow(row);
      if !Truthy(video.title) || !Truthy(video.url) then None
      else Some(Insert(rowNumber, video))
  }

  /** The first data row is row 2 of the sheet. */
  const FirstDataRow: nat := 2

  function RowInserts(rows: seq<seq<Cell>>): (os: seq<Option<Insert>>)
    ensures |os| == |rows|
    ensures forall i :: 0 <= i < |rows| ==> os[i] == RowInsert(FirstDataRow + i, rows[i])
  {
    if rows == [] then []
    else RowInserts(rows[..|rows| - 1]) + [RowInsert(FirstDataRow + |rows| - 1, rows[|rows| - 1])]
  }

  /** The insert calls made for the data rows, in sheet order. */
  function Inserts(rows: seq<seq<Cell>>): seq<Insert> {
    Successes(RowInserts(rows))
  }

  /** The inserts made are exactly the rows of three or more cells with a
      truthy title and url, in sheet order, each under its own sheet row
      number (the first data row being row 2) and each active. */
  lemma InsertsAreQualifyingRows(rows: seq<seq<Cell>>)
    ensures var inserts := Inserts(rows);
            var ks := SuccessIndices(RowInserts(rows));
            && |inserts| == |ks| <= |rows|
            && (forall j :: 0 <= j < |ks| ==>
                  ks[j] < |rows| && |rows[ks[j]]| >= 3 && Truthy(rows[ks[j]][1]) && Truthy(rows[ks[j]][2])
                  && inserts[j] == Insert(FirstDataRow + ks[j], VideoFromRow(rows[ks[j]]))
                  && inserts[j].video.isActive)
            && (forall i :: 0 <= i < |rows| && |rows[i]| >= 3 && Truthy(rows[i][1]) && Truthy(rows[i][2]) ==> i in ks)
            && (forall i, j :: 0 <= i < j < |ks| ==> ks[i] < ks[j])
  {
    var os := RowInserts(rows);
    var ks := SuccessIndices(os);
    SuccessesSelect(os);
    forall j | 0 <= j < |ks|
      ensures ks[j] < |rows| && |rows[ks[j]]| >= 3 && Truthy(rows[ks[j]][1]) && Truthy(rows[ks[j]][2])
    {
      assert os[ks[j]] == RowInsert(FirstDataRow + ks[j], rows[ks[j]]);
    }
    forall i | 0 <= i < |rows| && |rows[i]| >= 3 && Truthy(rows[i][1]) && Truthy(rows[i][2])
      ensures i in ks
    {
      assert os[i] == RowInsert(FirstDataRow + i, rows[i]);
    }
  }

  /** How many of `inserts` end with the given outcome. */
  function Counted(inserts: seq<Insert>, insertOk: nat -> bool, succeeded: bool): (n: nat)
    ensures n <= |inserts|
  {
    if inserts == [] then 0
    else
      Counted(inserts[..|inserts| - 1], insertOk, succeeded)
      + (if insertOk(inserts[|inserts| - 1].rowNumber) == succeeded then 1 else 0)
  }

  /** Every insert is counted once: as added or as an error. */
  lemma {:induction false} CountedPartition(inserts: seq<Insert>, insertOk: nat -> bool)
    ensures Counted(inserts, insertOk, true) + Counted(inserts, insertOk, false) == |inserts|
  {
    if inserts != [] {
      CountedPartition(inserts[..|inserts| - 1], insertOk);
    }
  }

  /** When no insert fails there is no error, and every insert is added. */
  lemma {:induction false} NoFailureNoErrors(inserts: seq<Insert>, insertOk: nat -> bool)
    requires forall j :: 0 <= j < |inserts| ==> insertOk(inserts[j].rowNumber)
    ensures Counted(inserts, insertOk, false) == 0
    ensures Counted(inserts, insertOk, true) == |inserts|
  {
    if inserts != [] {
      NoFailureNoErrors(inserts[..|inserts| - 1], insertOk);
    }
  }

  /** What the migration reports: nothing when a credential is missing,
      otherwise the inserts made and the two counters. */
  datatype Report =
    | MissingCredentials
    | Migrated(inserts: seq<Insert>, videosAdded: nat, errors: nat)

  /** An environment variable is usable when it is set and not empty. */
  predicate Present(v: Option<string>) {
    v.Some? && v.value != []
  }

  /** The report of a migration: a missing credential stops it before any
      insert; otherwise each insert is counted once, as added or as an
      error, and there are at most as many inserts as rows. */
  function Migration(url: Option<string>, key: Option<string>, rows: seq<seq<Cell>>, insertOk: nat -> bool): (report: Report)
    ensures report.MissingCredentials? <==> !Present(url) || !Present(key)
    ensures report.Migrated? ==> report.videosAdded + report.errors == |report.inserts| <= |rows|
  {
    if !Present(url) || !Present(key) then MissingCredentials
    else
      var inserts := Inserts(rows);
      CountedPartition(inserts, insertOk);
      Migrated(inserts, Counted(inserts, insertOk, true), Counted(inserts, insertOk, false))
  }

  /** `migrate_youtube_videos`: `rows` are the sheet's rows from row 2 on,
      and `insertOk(i)` tells whether the insert for sheet row `i` succeeds. */
  method MigrateVideos(url: Option<string>, key: Option<string>, rows: seq<seq<Cell>>, insertOk: nat -> bool)
    returns (report: Report)
    ensures report == Migration(url, key, rows, insertOk)
    ensures report.MissingCredentials? <==> !Present(url) || !Present(key)
    ensures report.Migrated? ==> report.videosAdded + report.errors == |report.inserts| <= |rows|
  {
    if !Present(url) || !Present(key) {
      return MissingCredentials;
    }

    var videosAdded := 0;
    var errors := 0;
    var inserts: seq<Insert> := [];
    for i := 0 to |rows|
      invariant inserts == Inserts(rows[..i])
      invariant videosAdded == Counted(inserts, insertOk, true)
      invariant errors == Counted(inserts, insertOk, false)
    {
      assert rows[..i + 1][..i] == rows[..i];
      var row := rows[i];
      var rowNumber := FirstDataRow + i;
      if row == [] || |row| < 3 {
        continue;
      }
      var videoData := VideoFromRow(row);
      if !Truthy(videoData.title) || !Truthy(videoData.url) {
        continue;
      }
      assert inserts + [Insert(rowNumber, videoData)] == Inserts(rows[..i + 1]);
      inserts := inserts + [Insert(rowNumber, videoData)];
      assert inserts[..|inserts| - 1] == Inserts(rows[..i]);
      if insertOk(rowNumber) {
        videosAdded := videosAdded + 1;
      } else {
        errors := errors + 1;
      }
    }
    assert rows[..|rows|] == rows;
    report := Migrated(inserts, videosAdded, errors);
  }
}
