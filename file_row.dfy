/** The file-list row of components/file-row.tsx: its own MIME classifier
    `getFileType` and the two lookup tables keyed by its result. */
module FileRow {
  import opened Strings
  import Format

  /** `iconMap`: file type to the name of the icon component. */
  const IconMap: map<string, string> := map[
    "audio" := "IconMusic",
    "pdf" := "IconFileTypePdf",
    "doc" := "IconFileTypeDoc",
    "sheet" := "IconFileTypeXls",
    "archive" := "IconFileTypeZip",
    "file" := "IconFile"
  ]

  /** `colorMap`: file type to the CSS classes of the icon badge. */
  const ColorMap: map<string, string> := map[
    "audio" := "bg-pink-500/15 text-pink-600",
    "pdf" := "bg-red-500/15 text-red-600",
    "doc" := "bg-sky-500/15 text-sky-600",
    "sheet" := "bg-emerald-500/15 text-emerald-600",
    "archive" := "bg-amber-500/15 text-amber-600",
    "file" := FileColor
  ]

  /** `colorMap.file`, the colour of the fallback. */
  const FileColor := "bg-muted text-muted-foreground"

  predicate DocTest(mimeType: string) {
    Includes(mimeType, "word") || Includes(mimeType, "document") || mimeType == "text/plain"
  }

  predicate SheetTest(mimeType: string) {
    Includes(mimeType, "sheet") || Includes(mimeType, "excel")
  }

  predicate ArchiveTest(mimeType: string) {
    Includes(mimeType, "zip") || Includes(mimeType, "rar") || Includes(mimeType, "tar")
    || Includes(mimeType, "compressed")
  }

  /** `getFileType`: the first rule that matches decides the type. */
  function GetFileType(mimeType: string): (r: string)
    ensures r in IconMap && r in ColorMap
    ensures r == "audio" <==> StartsWith(mimeType, "audio/")
    // pdf needs the exact type: no substring test
    ensures r == "pdf" <==> mimeType == "application/pdf"
    ensures r == "doc" <==>
              !StartsWith(mimeType, "audio/") && mimeType != "application/pdf" && DocTest(mimeType)
    ensures r == "sheet" <==>
              !StartsWith(mimeType, "audio/") && mimeType != "application/pdf" && !DocTest(mimeType)
              && SheetTest(mimeType)
    ensures r == "archive" <==>
              !StartsWith(mimeType, "audio/") && mimeType != "application/pdf" && !DocTest(mimeType)
              && !SheetTest(mimeType) && ArchiveTest(mimeType)
    ensures r == "file" <==>
              !StartsWith(mimeType, "audio/") && mimeType != "application/pdf" && !DocTest(mimeType)
              && !SheetTest(mimeType) && !ArchiveTest(mimeType)
  {
    NotPrefix("application/pdf", "audio/", 1);
    if StartsWith(mimeType, "audio/") then "audio"
    else if mimeType == "application/pdf" then "pdf"
    else if Includes(mimeType, "word") || Includes(mimeType, "document") || mimeType == "text/plain" then "doc"
    else if Includes(mimeType, "sheet") || Includes(mimeType, "excel") then "sheet"
    else if Includes(mimeType, "zip") || Includes(mimeType, "rar") || Includes(mimeType, "tar")
            || Includes(mimeType, "compressed") then "archive"
    else "file"
  }

  /** `iconMap[fileType] || IconFile`: the fallback never applies. */
  function RowIcon(mimeType: string): (icon: string)
    ensures icon == IconMap[GetFileType(mimeType)]
    ensures icon != ""
  {
    var fileType := GetFileType(mimeType);
    if fileType in IconMap && IconMap[fileType] != "" then IconMap[fileType] else "IconFile"
  }

  /** `colorMap[fileType] || colorMap.file`: the fallback never applies. */
  function RowColor(mimeType: string): (color: string)
    ensures color == ColorMap[GetFileType(mimeType)]
    ensures color != ""
  {
    var fileType := GetFileType(mimeType);
    if fileType in ColorMap && ColorMap[fileType] != "" then ColorMap[fileType] else FileColor
  }

  /** "image/png" and "video/mp4" pass none of the row's tests. */
  lemma PictureTypesMatchNoRowRule()
    ensures !StartsWith("image/png", "audio/") && !DocTest("image/png") && !SheetTest("image/png")
    ensures !ArchiveTest("image/png")
    ensures !StartsWith("video/mp4", "audio/") && !DocTest("video/mp4") && !SheetTest("video/mp4")
    ensures !ArchiveTest("video/mp4")
  {
    var m := "image/png";
    NotPrefix(m, "audio/", 0);
    MissingChar(m, "word", 0);
    MissingChar(m, "document", 0);
    MissingChar(m, "sheet", 0);
    MissingChar(m, "excel", 1);
    MissingChar(m, "zip", 0);
    MissingChar(m, "rar", 0);
    MissingChar(m, "tar", 0);
    MissingChar(m, "compressed", 0);
    var v := "video/mp4";
    NotPrefix(v, "audio/", 0);
    MissingChar(v, "word", 0);
    MissingChar(v, "document", 2);
    MissingChar(v, "sheet", 0);
    MissingChar(v, "excel", 1);
    MissingChar(v, "zip", 0);
    MissingChar(v, "rar", 0);
    MissingChar(v, "tar", 0);
    MissingChar(v, "compressed", 0);
  }

  /** The row has no image or video label: `image/png` and `video/mp4` are plain files. */
  lemma ImageAndVideoAreFiles()
    ensures GetFileType("image/png") == "file"
    ensures GetFileType("video/mp4") == "file"
  {
    PictureTypesMatchNoRowRule();
  }

  /** "application/x-pdf" passes none of the row's tests. */
  lemma NonstandardPdfMatchesNoRowRule()
    ensures !StartsWith("application/x-pdf", "audio/") && !DocTest("application/x-pdf")
    ensures !SheetTest("application/x-pdf") && !ArchiveTest("application/x-pdf")
  {
    var m := "application/x-pdf";
    NotPrefix(m, "audio/", 1);
    MissingChar(m, "word", 0);
    MissingChar(m, "document", 3);
    MissingChar(m, "sheet", 0);
    MissingChar(m, "excel", 0);
    MissingChar(m, "zip", 0);
    MissingChar(m, "rar", 0);
    MissingChar(m, "tar", 2);
    MissingChar(m, "compressed", 2);
  }

  /** Only the exact PDF type is a PDF here. */
  lemma PdfNeedsExactType()
    ensures GetFileType("application/pdf") == "pdf"
    ensures GetFileType("application/x-pdf") == "file"
  {
    NonstandardPdfMatchesNoRowRule();
  }

  /** Plain text is a document here. */
  lemma TextPlainIsDoc()
    ensures GetFileType("text/plain") == "doc"
  {
    NotPrefix("text/plain", "audio/", 0);
  }

  /** "application/x-tar" is neither audio nor a document. */
  lemma TarIsNoDoc()
    ensures !StartsWith("application/x-tar", "audio/") && !DocTest("application/x-tar")
  {
    var m := "application/x-tar";
    NotPrefix(m, "audio/", 1);
    MissingChar(m, "word", 0);
    MissingChar(m, "document", 0);
  }

  /** "application/x-tar" is no spreadsheet. */
  lemma TarIsNoSheet()
    ensures !SheetTest("application/x-tar")
  {
    var m := "application/x-tar";
    MissingChar(m, "sheet", 0);
    MissingChar(m, "excel", 0);
  }

  /** "application/x-tar" passes the archive test and no earlier one. */
  lemma TarMatchesArchiveRule()
    ensures !StartsWith("application/x-tar", "audio/") && !DocTest("application/x-tar")
      && !SheetTest("application/x-tar") && ArchiveTest("application/x-tar")
  {
    TarIsNoDoc();
    TarIsNoSheet();
    IncludesAt("application/x-tar", "tar", 14);
  }

  /** A tar archive is found by the "tar" substring. */
  lemma TarIsArchive()
    ensures GetFileType("application/x-tar") == "archive"
  {
    TarMatchesArchiveRule();
  }

  /** The row tests "document" before "sheet" too, so the OOXML spreadsheet
      type is shown as a document here as well. */
  lemma OoxmlSheetIsDocRow()
    ensures GetFileType(Format.OoxmlSheet) == "doc"
  {
    Format.OoxmlSheetIsDoc();
    NotPrefix(Format.OoxmlSheet, "audio/", 1);
    assert Format.OoxmlSheet[12] != "application/pdf"[12];
  }

  /** The two classifiers agree on a MIME type exactly in these cases. */
  predicate SameCategory(mimeType: string) {
    if StartsWith(mimeType, "audio/") then true
    else if StartsWith(mimeType, "image/") || StartsWith(mimeType, "video/") then false
    else if Includes(mimeType, "pdf") then mimeType == "application/pdf"
    else if Format.DocWords(mimeType) then true
    else if mimeType == "text/plain" then false
    else if SheetTest(mimeType) then true
    else if Includes(mimeType, "zip") || Includes(mimeType, "rar") then true
    else Includes(mimeType, "archive") == (Includes(mimeType, "tar") || Includes(mimeType, "compressed"))
  }

  /** Where `getFileIcon` of lib/format.ts and `getFileType` give the same label. */
  lemma ClassifiersAgreeIff(mimeType: string)
    ensures Format.GetFileIcon(mimeType) == GetFileType(mimeType) <==> SameCategory(mimeType)
  {
    var m := mimeType;
    if StartsWith(m, "audio/") {
      assert m[..6][0] == 'a';
      NotPrefix(m, "image/", 0);
      NotPrefix(m, "video/", 0);
    }
    if m == "application/pdf" {
      NotPrefix(m, "image/", 0);
      NotPrefix(m, "video/", 0);
      IncludesAt(m, "pdf", 12);
    }
    if m == "text/plain" {
      Format.TextPlainMatchesNoRule();
    }
  }

  /** Every PDF, document or spreadsheet label of the row is shared by lib/format.ts. */
  lemma RowLabelsKeptByFormat(mimeType: string)
    ensures GetFileType(mimeType) == "pdf" ==> Format.GetFileIcon(mimeType) == "pdf"
    ensures Format.GetFileIcon(mimeType) == "doc" ==> GetFileType(mimeType) == "doc"
    ensures Format.GetFileIcon(mimeType) == "sheet" ==> GetFileType(mimeType) == "sheet"
  {
    if mimeType == "application/pdf" {
      Format.ApplicationPdfIsPdf();
    } else {
      ClassifiersAgreeIff(mimeType);
      if mimeType == "text/plain" {
        Format.TextPlainMatchesNoRule();
      }
    }
  }
}
