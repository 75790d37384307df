/** The MIME-type classifier of lib/format.ts: an ordered chain of prefix
    and substring tests mapping a MIME type to one of eight display labels. */
module Format {
  import opened Strings

  /** Every label `getFileIcon` can return. */
  const IconLabels: set<string> := {"image", "video", "audio", "pdf", "doc", "sheet", "archive", "file"}

  /** The three prefix rules, tested before any substring rule. */
  predicate MediaPrefix(mimeType: string) {
    StartsWith(mimeType, "image/") || StartsWith(mimeType, "video/") || StartsWith(mimeType, "audio/")
  }

  predicate DocWords(mimeType: string) {
    Includes(mimeType, "word") || Includes(mimeType, "document")
  }

  predicate SheetWords(mimeType: string) {
    Includes(mimeType, "sheet") || Includes(mimeType, "excel")
  }

  predicate ArchiveWords(mimeType: string) {
    Includes(mimeType, "zip") || Includes(mimeType, "rar") || Includes(mimeType, "archive")
  }

  /** `getFileIcon`: the first rule that matches decides the label. */
  function GetFileIcon(mimeType: string): (r: string)
    ensures r in IconLabels
    // the prefix rules win whatever substrings follow
    ensures StartsWith(mimeType, "image/") ==> r == "image"
    ensures StartsWith(mimeType, "video/") ==> r == "video"
    ensures StartsWith(mimeType, "audio/") ==> r == "audio"
    // each substring rule applies exactly when no earlier rule did
    ensures r == "pdf" <==> !MediaPrefix(mimeType) && Includes(mimeType, "pdf")
    ensures r == "doc" <==> !MediaPrefix(mimeType) && !Includes(mimeType, "pdf") && DocWords(mimeType)
    ensures r == "sheet" <==>
              !MediaPrefix(mimeType) && !Includes(mimeType, "pdf") && !DocWords(mimeType) && SheetWords(mimeType)
    ensures r == "archive" <==>
              !MediaPrefix(mimeType) && !Includes(mimeType, "pdf") && !DocWords(mimeType) && !SheetWords(mimeType)
              && ArchiveWords(mimeType)
    // the fallback applies exactly when no test matched
    ensures r == "file" <==>
              !MediaPrefix(mimeType) && !Includes(mimeType, "pdf") && !DocWords(mimeType) && !SheetWords(mimeType)
              && !ArchiveWords(mimeType)
  {
    if StartsWith(mimeType, "image/") then "image"
    else if StartsWith(mimeType, "video/") then "video"
    else if StartsWith(mimeType, "audio/") then "audio"
    else if Includes(mimeType, "pdf") then "pdf"
    else if Includes(mimeType, "word") || Includes(mimeType, "document") then "doc"
    else if Includes(mimeType, "sheet") || Includes(mimeType, "excel") then "sheet"
    else if Includes(mimeType, "zip") || Includes(mimeType, "rar") || Includes(mimeType, "archive") then "archive"
    else "file"
  }

  /** The OOXML spreadsheet type, written as a concatenation of short pieces
      so that the verifier can look up its characters cheaply. */
  const OoxmlSheet: string :=
    "application/" + "vnd.openxml" + "formats-" + "officedoc" + "ument." + "spreadshe" + "etml.sheet"

  /** No 'p' of the OOXML spreadsheet type is followed by a 'd'. */
  lemma OoxmlSheetNoPd(i: int)
    requires 0 <= i < |OoxmlSheet| - 1
    ensures !(OoxmlSheet[i] == 'p' && OoxmlSheet[i + 1] == 'd')
  {
    if i < 8 {
    } else if i < 16 {
    } else if i < 24 {
    } else if i < 32 {
    } else if i < 40 {
    } else if i < 48 {
    } else if i < 56 {
    } else {
    }
  }

  /** The OOXML spreadsheet type does not contain "pdf". */
  lemma OoxmlSheetHasNoPdf()
    ensures !Includes(OoxmlSheet, "pdf")
  {
    forall i | 0 <= i < |OoxmlSheet| - 1
      ensures !(OoxmlSheet[i] == "pdf"[0] && OoxmlSheet[i + 1] == "pdf"[1])
    {
      OoxmlSheetNoPd(i);
    }
    MissingPair(OoxmlSheet, "pdf", 0);
  }

  /** The OOXML spreadsheet type contains both "document" and "sheet"; the
      `document` rule comes first, so it is labelled a document. */
  lemma OoxmlSheetIsDoc()
    ensures Includes(OoxmlSheet, "document") && Includes(OoxmlSheet, "sheet")
    ensures GetFileIcon(OoxmlSheet) == "doc"
  {
    IncludesAt(OoxmlSheet, "document", 37);
    IncludesAt(OoxmlSheet, "sheet", 52);
    NotPrefix(OoxmlSheet, "image/", 0);
    NotPrefix(OoxmlSheet, "video/", 0);
    NotPrefix(OoxmlSheet, "audio/", 1);
    OoxmlSheetHasNoPdf();
  }

  lemma ImagePngIsImage()
    ensures GetFileIcon("image/png") == "image"
  {
  }

  lemma ApplicationPdfIsPdf()
    ensures GetFileIcon("application/pdf") == "pdf"
  {
    var m := "application/pdf";
    NotPrefix(m, "image/", 0);
    NotPrefix(m, "video/", 0);
    NotPrefix(m, "audio/", 1);
    IncludesAt(m, "pdf", 12);
  }

  lemma ApplicationZipIsArchive()
    ensures GetFileIcon("application/zip") == "archive"
  {
    var m := "application/zip";
    NotPrefix(m, "image/", 0);
    NotPrefix(m, "video/", 0);
    NotPrefix(m, "audio/", 1);
    MissingChar(m, "pdf", 1);
    MissingChar(m, "word", 0);
    MissingChar(m, "document", 0);
    MissingChar(m, "sheet", 0);
    MissingChar(m, "excel", 0);
    IncludesAt(m, "zip", 12);
  }

  /** An unknown type falls through every rule. */
  lemma UnknownTypeIsFile()
    ensures GetFileIcon("text/unknown-xyz") == "file"
  {
    var m := "text/unknown-xyz";
    NotPrefix(m, "image/", 0);
    NotPrefix(m, "video/", 0);
    NotPrefix(m, "audio/", 0);
    MissingChar(m, "pdf", 0);
    MissingChar(m, "word", 2);
    MissingChar(m, "document", 0);
    MissingChar(m, "sheet", 0);
    MissingChar(m, "excel", 2);
    MissingChar(m, "zip", 1);
    MissingChar(m, "rar", 0);
    MissingChar(m, "archive", 0);
  }

  /** "text/plain" matches none of the tests of the chain. */
  lemma TextPlainMatchesNoRule()
    ensures !MediaPrefix("text/plain") && !Includes("text/plain", "pdf")
    ensures !DocWords("text/plain") && !SheetWords("text/plain") && !ArchiveWords("text/plain")
  {
    var m := "text/plain";
    NotPrefix(m, "image/", 0);
    NotPrefix(m, "video/", 0);
    NotPrefix(m, "audio/", 0);
    MissingChar(m, "pdf", 1);
    MissingChar(m, "word", 0);
    MissingChar(m, "document", 0);
    MissingChar(m, "sheet", 0);
    MissingChar(m, "excel", 2);
    MissingChar(m, "zip", 0);
    MissingChar(m, "rar", 0);
    MissingChar(m, "archive", 1);
  }

  /** Plain text has no rule of its own here. */
  lemma TextPlainIsFile()
    ensures GetFileIcon("text/plain") == "file"
  {
    TextPlainMatchesNoRule();
  }
}
