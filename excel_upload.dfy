/** The spreadsheet upload: which files are accepted, how the rows of the
    first sheet become recipient names, and the component's state. */
module ExcelUpload {
  import opened Wrappers
  import opened JsString
  import opened Notifications

  /** A cell of the sheet as the spreadsheet reader returns it: a string, some
      other value (number, boolean, date), or nothing at all. */
  datatype Cell = Text(text: string) | NonText | Missing

  /** One row of the first sheet, read as an array of cells. */
  type Row = seq<Cell>

  /** row[0]; reading past the end of the row gives undefined. */
  function FirstCell(row: Row): Cell {
    if |row| == 0 then Missing else row[0]
  }

  /** The row test: the first cell is truthy, a string, and has a truthy trim. */
  predicate IsNameCell(c: Cell) {
    c.Text? && c.text != "" && Trim(c.text) != ""
  }

  predicate IsNameRow(row: Row) {
    IsNameCell(FirstCell(row))
  }

  /** The name a row contributes. */
  function RowName(row: Row): string
    requires IsNameRow(row)
  {
    Trim(FirstCell(row).text)
  }

  /** The names the rows yield, in row order. */
  function NamesOf(rows: seq<Row>): seq<string>
    decreases |rows|
  {
    if rows == [] then []
    else
      var last := rows[|rows| - 1];
      NamesOf(rows[..|rows| - 1]) + (if IsNameRow(last) then [RowName(last)] else [])
  }

  /** Appending a row appends that row's name, if it has one. */
  lemma NamesOfAppendRow(rows: seq<Row>, row: Row)
    ensures NamesOf(rows + [row]) == NamesOf(rows) + (if IsNameRow(row) then [RowName(row)] else [])
  {
    assert (rows + [row])[..|rows|] == rows;
  }

  /** The extraction loop of processExcelFile. */
  method ExtractNames(rows: seq<Row>) returns (names: seq<string>)
    ensures names == NamesOf(rows)
  {
    names := [];
    var i := 0;
    while i < |rows|
      invariant 0 <= i <= |rows|
      invariant names == NamesOf(rows[..i])
    {
      var row := rows[i];
      assert rows[..i + 1][..i] == rows[..i];
      if IsNameRow(row) {
        names := names + [Trim(FirstCell(row).text)];
      }
      i := i + 1;
    }
    assert rows[..i] == rows;
  }

  /** There are never more names than rows. */
  lemma {:induction false} NamesAtMostRows(rows: seq<Row>)
    ensures |NamesOf(rows)| <= |rows|
    decreases |rows|
  {
    if rows != [] {
      NamesAtMostRows(rows[..|rows| - 1]);
    }
  }

  /** Every name is non-empty and has no whitespace at either end. */
  lemma {:induction false} NamesAreTrimmed(rows: seq<Row>)
    ensures forall k :: 0 <= k < |NamesOf(rows)| ==>
      NamesOf(rows)[k] != "" && IsTrimmed(NamesOf(rows)[k]) && Trim(NamesOf(rows)[k]) == NamesOf(rows)[k]
    decreases |rows|
  {
    if rows != [] {
      var last := rows[|rows| - 1];
      NamesAreTrimmed(rows[..|rows| - 1]);
      if IsNameRow(last) {
        TrimIsTrimmed(FirstCell(last).text);
        TrimIdempotent(FirstCell(last).text);
      }
    }
  }

  /** The names are exactly the trimmed first cells of the name rows, in row
      order: idx lists, increasing, the rows each name comes from, and every
      name row is listed. */
  lemma {:induction false} NamesAreNameRowsInOrder(rows: seq<Row>) returns (idx: seq<nat>)
    ensures |idx| == |NamesOf(rows)|
    ensures forall k :: 0 <= k < |idx| ==>
      idx[k] < |rows| && IsNameRow(rows[idx[k]]) && NamesOf(rows)[k] == RowName(rows[idx[k]])
    ensures forall j, k :: 0 <= j < k < |idx| ==> idx[j] < idx[k]
    ensures forall i :: 0 <= i < |rows| && IsNameRow(rows[i]) ==> i in idx
    decreases |rows|
  {
    if rows == [] {
      idx := [];
    } else {
      var n := |rows| - 1;
      var front := rows[..n];
      var pre := NamesAreNameRowsInOrder(front);
      if IsNameRow(rows[n]) {
        idx := pre + [n];
      } else {
        idx := pre;
      }
      forall i | 0 <= i < |rows| && IsNameRow(rows[i]) ensures i in idx {
        if i < n {
          assert front[i] == rows[i];
          assert i in pre;
        }
      }
    }
  }

  /** The rows of a sheet whose first column holds the given names. */
  function NameColumn(names: seq<string>): (rows: seq<Row>)
    ensures |rows| == |names|
    ensures forall k :: 0 <= k < |names| ==> rows[k] == [Text(names[k])]
  {
    seq(|names|, k requires 0 <= k < |names| => [Text(names[k])])
  }

  /** A sheet whose first column already holds extracted names yields
      exactly those names. */
  lemma {:induction false} NameColumnRoundTrip(names: seq<string>)
    requires forall k :: 0 <= k < |names| ==> names[k] != "" && IsTrimmed(names[k])
    ensures NamesOf(NameColumn(names)) == names
    decreases |names|
  {
    if names != [] {
      var n := |names| - 1;
      NameColumnRoundTrip(names[..n]);
      assert NameColumn(names)[..n] == NameColumn(names[..n]);
      TrimOfTrimmed(names[n]);
      assert names == names[..n] + [names[n]];
    }
  }

  /** Extraction is idempotent: extracting from a sheet made of the names
      extracted before gives the same names. */
  lemma ExtractionIdempotent(rows: seq<Row>)
    ensures NamesOf(NameColumn(NamesOf(rows))) == NamesOf(rows)
  {
    NamesAreTrimmed(rows);
    NameColumnRoundTrip(NamesOf(rows));
  }

  /** The uploaded file as the browser describes it. */
  datatype FileInfo = FileInfo(name: string, mimeType: string)

  const XlsxType := "application/vnd.openxmlformats-officedocument.spreadsheetml.sheet"
  const XlsType := "application/vnd.ms-excel"

  /** A file is taken for a spreadsheet by its type or by its name's ending
      (the ending is compared case-sensitively). */
  predicate IsSpreadsheet(file: FileInfo) {
    || file.mimeType == XlsxType
    || file.mimeType == XlsType
    || EndsWith(file.name, ".xlsx")
    || EndsWith(file.name, ".xls")
  }

  /** The acceptance test in terms of concatenation rather than slicing. */
  lemma SpreadsheetIffTypeOrExtension(file: FileInfo)
    ensures IsSpreadsheet(file) <==>
      || file.mimeType in {XlsxType, XlsType}
      || (exists p :: file.name == p + ".xlsx")
      || (exists p :: file.name == p + ".xls")
  {
    EndsWithIffConcat(file.name, ".xlsx");
    EndsWithIffConcat(file.name, ".xls");
  }

  /** An upper-case extension with an unrecognised type is refused. */
  lemma UpperCaseExtensionRefused()
    ensures !IsSpreadsheet(FileInfo("NAMES.XLSX", ""))
  {
    assert "NAMES.XLSX"[5..] != ".xlsx";
    assert "NAMES.XLSX"[6..] != ".xls";
  }

  /** What reading the selected file gave: its first sheet's rows, or a
      failure anywhere in reading and parsing it. */
  datatype SheetRead = ReadFailed | FirstSheet(rows: seq<Row>)

  /** The component's state. */
  class ExcelUploader {
    var selectedFile: Option<FileInfo>
    var isProcessing: bool

    constructor ()
      ensures selectedFile == None && !isProcessing
    {
      selectedFile := None;
      isProcessing := false;
    }

    /** handleFileSelect: file is the first file of the input, if any. */
    method HandleFileSelect(file: Option<FileInfo>) returns (toasts: seq<Toast>)
      modifies this`selectedFile
      ensures file.Some? && IsSpreadsheet(file.value) ==> selectedFile == file && toasts == []
      ensures file.Some? && !IsSpreadsheet(file.value) ==>
        selectedFile == old(selectedFile) && toasts == [InvalidFileType]
      ensures file.None? ==> selectedFile == old(selectedFile) && toasts == []
      ensures forall t :: t in toasts ==> t.Destructive() && t.Title() == "Invalid File Type"
    {
      toasts := [];
      if file.Some? {
        if IsSpreadsheet(file.value) {
          selectedFile := file;
        } else {
          toasts := [InvalidFileType];
        }
      }
    }

    /** handleDrop: file is the first dropped file, if any; the same test. */
    method HandleDrop(file: Option<FileInfo>) returns (toasts: seq<Toast>)
      modifies this`selectedFile
      ensures file.Some? && IsSpreadsheet(file.value) ==> selectedFile == file && toasts == []
      ensures file.Some? && !IsSpreadsheet(file.value) ==>
        selectedFile == old(selectedFile) && toasts == [InvalidFileType]
      ensures file.None? ==> selectedFile == old(selectedFile) && toasts == []
      ensures forall t :: t in toasts ==> t.Destructive() && t.Title() == "Invalid File Type"
    {
      toasts := [];
      if file.Some? {
        if IsSpreadsheet(file.value) {
          selectedFile := file;
        } else {
          toasts := [InvalidFileType];
        }
      }
    }

    /** processExcelFile: handedOn lists the calls made to onNamesExtracted.
        read is what the spreadsheet reader gives for the selected file; it
        is consulted only when a file is selected. */
    method ProcessExcelFile(read: SheetRead) returns (handedOn: seq<seq<string>>, toasts: seq<Toast>)
      modifies this`isProcessing
      ensures old(selectedFile).None? ==> handedOn == [] && toasts == [] && isProcessing == old(isProcessing)
      ensures old(selectedFile).Some? ==> !isProcessing
      ensures old(selectedFile).Some? && read.ReadFailed? ==> handedOn == [] && toasts == [ErrorProcessingFile]
      ensures old(selectedFile).Some? && read.FirstSheet? && NamesOf(read.rows) == [] ==>
        handedOn == [] && toasts == [NoNamesFound]
      ensures old(selectedFile).Some? && read.FirstSheet? && NamesOf(read.rows) != [] ==>
        handedOn == [NamesOf(read.rows)] && toasts == [Extracted(|NamesOf(read.rows)|)]
      ensures |toasts| <= 1
      ensures forall t :: t in toasts ==> (t.Destructive() <==> handedOn == [])
    {
      handedOn, toasts := [], [];
      if selectedFile.None? {
        return;
      }
      isProcessing := true;
      match read {
        case ReadFailed =>
          toasts := [ErrorProcessingFile];
        case FirstSheet(rows) =>
          var names := ExtractNames(rows);
          if |names| == 0 {
            toasts := [NoNamesFound];
          } else {
            handedOn := [names];
            toasts := [Extracted(|names|)];
          }
      }
      isProcessing := false;
    }

    /** clearFile: forget the selected file. */
    method ClearFile()
      modifies this`selectedFile
      ensures selectedFile == None
    {
      selectedFile := None;
    }
  }
}
