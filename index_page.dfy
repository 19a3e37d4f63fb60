/** The application page: it owns the record, the batch of names, the
    selected design and the custom background, and chooses between the
    single preview and the batch navigator. */
module IndexPage {
  import opened CertificateRecord
  import opened CertificateDesigns
  import opened ExcelUpload
  import opened BatchCertificates
  import opened CertificatePreview
  import opened JsString

  /** What the preview column shows. */
  datatype PreviewPane =
    | BatchPane(names: seq<string>, baseData: CertificateData, design: Design)
    | SinglePane(data: CertificateData, design: Design)

  /** The batch navigator when there are names, else the single preview. */
  function PreviewPaneOf(batchNames: seq<string>, certificateData: CertificateData, selectedDesign: Design): (p: PreviewPane)
    ensures p.BatchPane? <==> |batchNames| > 0
    ensures p.BatchPane? ==> p.names == batchNames && p.baseData == certificateData
    ensures p.SinglePane? ==> p.data == certificateData
    ensures p.design == selectedDesign
  {
    if |batchNames| > 0 then BatchPane(batchNames, certificateData, selectedDesign)
    else SinglePane(certificateData, selectedDesign)
  }

  /** The record the preview column renders when the navigator, if shown,
      stands at currentIndex. */
  function DisplayedRecord(p: PreviewPane, currentIndex: int): CertificateData {
    match p
    case BatchPane(names, baseData, _) => CurrentCertificateData(baseData, names, currentIndex)
    case SinglePane(data, _) => data
  }

  /** Whatever the mode, the rendered record differs from the page's record
      in the recipient name at most, and download is enabled exactly when
      the rendered record has a recipient and a course. */
  lemma DisplayedRecordSharesFields(batchNames: seq<string>, data: CertificateData, design: Design,
                                    currentIndex: int, toLocaleLong: string -> string)
    ensures var shown := DisplayedRecord(PreviewPaneOf(batchNames, data, design), currentIndex);
      && (forall f :: f != RecipientName ==> Get(shown, f) == Get(data, f))
      && (Render(shown, design, toLocaleLong).downloadEnabled <==>
            shown.recipientName != "" && data.courseName != "")
  {
  }

  class CertificateApp {
    var certificateData: CertificateData
    var batchNames: seq<string>
    var selectedDesign: Design
    var customBackgroundUrl: string

    constructor ()
      ensures certificateData == Blank()
      ensures batchNames == []
      ensures selectedDesign == Classic
      ensures customBackgroundUrl == ""
    {
      certificateData := CertificateData("", "", "", "", "");
      batchNames := [];
      selectedDesign := Classic;
      customBackgroundUrl := "";
    }

    /** The form's onChange. */
    method SetCertificateData(data: CertificateData)
      modifies this`certificateData
      ensures certificateData == data
    {
      certificateData := data;
    }

    /** The design picker's onDesignChange. */
    method SetSelectedDesign(design: Design)
      modifies this`selectedDesign
      ensures selectedDesign == design
    {
      selectedDesign := design;
    }

    /** handleNamesExtracted: the new names replace the batch wholesale. */
    method HandleNamesExtracted(names: seq<string>)
      modifies this`batchNames
      ensures batchNames == names
    {
      batchNames := names;
    }

    /** clearBatch: back to the single preview of the page's own record. */
    method ClearBatch()
      modifies this`batchNames
      ensures batchNames == []
      ensures Preview() == SinglePane(certificateData, selectedDesign)
    {
      batchNames := [];
    }

    /** handleCustomBackgroundUpload. */
    method HandleCustomBackgroundUpload(url: string)
      modifies this`customBackgroundUrl
      ensures customBackgroundUrl == url
    {
      customBackgroundUrl := url;
    }

    function Preview(): PreviewPane
      reads this
    {
      PreviewPaneOf(batchNames, certificateData, selectedDesign)
    }
  }

  /** A first column of "Alice", empty, 42, "  Bob  ", "Carol". */
  const SampleRows: seq<Row> := [[Text("Alice")], [Text("")], [NonText], [Text("  Bob  ")], [Text("Carol")]]

  /** Which sample rows are name rows, and their names. */
  lemma SampleRowNames()
    ensures IsNameRow(SampleRows[0]) && RowName(SampleRows[0]) == "Alice"
    ensures !IsNameRow(SampleRows[1]) && !IsNameRow(SampleRows[2])
    ensures IsNameRow(SampleRows[3]) && RowName(SampleRows[3]) == "Bob"
    ensures IsNameRow(SampleRows[4]) && RowName(SampleRows[4]) == "Carol"
  {
    TrimOfTrimmed("Alice");
    TrimOfTrimmed("Carol");
    TrimOfPadded("  ", "Bob", "  ");
    assert "  " + "Bob" + "  " == "  Bob  ";
  }

  /** The sample yields Alice, Bob and Carol: the empty and the numeric cell
      are skipped and Bob's padding is trimmed. */
  lemma SampleRowsYieldThreeNames()
    ensures NamesOf(SampleRows) == ["Alice", "Bob", "Carol"]
  {
    SampleRowNames();
    var r0, r1, r2, r3, r4 := SampleRows[0], SampleRows[1], SampleRows[2], SampleRows[3], SampleRows[4];
    assert SampleRows == [r0, r1, r2, r3] + [r4];
    NamesOfAppendRow([r0, r1, r2, r3], r4);
    assert [r0, r1, r2, r3] == [r0, r1, r2] + [r3];
    NamesOfAppendRow([r0, r1, r2], r3);
    assert [r0, r1, r2] == [r0, r1] + [r2];
    NamesOfAppendRow([r0, r1], r2);
    assert [r0, r1] == [r0] + [r1];
    NamesOfAppendRow([r0], r1);
    assert [r0] == [] + [r0];
    NamesOfAppendRow([], r0);
  }

  /** With the modern design and the navigator moved on once, Bob's
      certificate is drawn in green; clearing the batch shows the page's own
      record again. */
  lemma SampleBatchWalkthrough(data: CertificateData, toLocaleLong: string -> string)
    ensures var names := NamesOf(SampleRows);
      var i := NextIndex(names, 0);
      var v := Render(DisplayedRecord(PreviewPaneOf(names, data, Modern), i), Modern, toLocaleLong);
      && i == 1
      && v.recipient == "Bob"
      && v.classes == ModernClasses
      && PreviewPaneOf([], data, Modern) == SinglePane(data, Modern)
  {
    SampleRowsYieldThreeNames();
    LookupOfDesign(Modern);
  }
}
