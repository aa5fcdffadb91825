/**
 * `parseFiles`: read the uploaded files in order, concatenate the text of
 * the word-processing documents under a per-file header, detect a request
 * for research in that text, and collect the non-empty spreadsheet sheets
 * under `"<file> - <sheet>"` keys.
 *
 * The libraries (mammoth for .docx text, XLSX for workbooks), the
 * `FileReader` and the loading of the library scripts are outside the
 * model: their results are the fields of `Readers`.
 */
module FileParser {
  import opened JsRuntime
  import opened Types

  /** One sheet of a workbook: its name and the rows `sheet_to_json` produced for it. */
  datatype Sheet = Sheet(name: string, rows: seq<Row>)

  /** What the foreign code returns for a given input. */
  datatype Readers = Readers(
    // the failure of loading the two library scripts, if any
    libraries: Option<Thrown>,
    // the failure of reading a file into a buffer, if any
    readFile: File -> Option<Thrown>,
    // the raw text mammoth extracts from a .docx file
    extractText: File -> Result<string, Thrown>,
    // the sheets, in `SheetNames` order, XLSX reads from a .xlsx file
    readSheets: File -> Result<seq<Sheet>, Thrown>)

  /** The result of `parseFiles`. */
  datatype Parsed = Parsed(docxContent: string, xlsxData: SheetData, researchRequested: bool)

  const EmptyParse := Parsed("", map[], false)

  /** The text asks for research: its lower-cased form mentions "research" or "find information on". */
  predicate MentionsResearch(text: string)
  {
    Includes(Lower(text), "research") || Includes(Lower(text), "find information on")
  }

  /** The part of `docxContent` contributed by one .docx file. */
  function DocxSection(fileName: string, text: string): string
  {
    "\n\n--- Content from " + fileName + " ---\n" + text
  }

  /** The key under which a sheet's rows are stored. */
  function SheetKey(fileName: string, sheetName: string): string
  {
    fileName + " - " + sheetName
  }

  predicate IsDocx(f: File) { EndsWith(f.name, ".docx") }

  /** Dispatch checks ".docx" first, so a file is handled as a workbook only when it is not a document. */
  predicate IsXlsx(f: File) { !IsDocx(f) && EndsWith(f.name, ".xlsx") }

  /** The sheet dictionary after the `forEach` over one workbook's sheets. */
  function AddSheets(data: SheetData, fileName: string, sheets: seq<Sheet>): SheetData
    decreases |sheets|
  {
    if sheets == [] then data
    else
      var before := AddSheets(data, fileName, sheets[..|sheets| - 1]);
      var last := sheets[|sheets| - 1];
      if |last.rows| > 0 then before[SheetKey(fileName, last.name) := last.rows] else before
  }

  /** One iteration of the loop over the files. */
  function ParseStep(acc: Parsed, f: File, rd: Readers): Result<Parsed, Thrown>
  {
    match rd.readFile(f)
    case Some(e) => Err(e)
    case None =>
      if IsDocx(f) then
        match rd.extractText(f)
        case Err(e) => Err(e)
        case Ok(text) =>
          Ok(Parsed(acc.docxContent + DocxSection(f.name, text), acc.xlsxData,
                    acc.researchRequested || MentionsResearch(text)))
      else if IsXlsx(f) then
        match rd.readSheets(f)
        case Err(e) => Err(e)
        case Ok(sheets) => Ok(acc.(xlsxData := AddSheets(acc.xlsxData, f.name, sheets)))
      else Ok(acc)
  }

  /** The loop over `files`, from the empty accumulators; the first failure ends it. */
  function ParseAll(files: seq<File>, rd: Readers): Result<Parsed, Thrown>
    decreases |files|
  {
    if files == [] then Ok(EmptyParse)
    else match ParseAll(files[..|files| - 1], rd)
      case Err(e) => Err(e)
      case Ok(acc) => ParseStep(acc, files[|files| - 1], rd)
  }

  /** `parseFiles(files)`: the libraries are loaded first, then the files are read in order. */
  function ParseResult(files: seq<File>, rd: Readers): Result<Parsed, Thrown>
  {
    match rd.libraries
    case Some(e) => Err(e)
    case None => ParseAll(files, rd)
  }

  /** A failure on a prefix of the files is the failure of the whole list. */
  lemma {:induction false} FailureIsFinal(files: seq<File>, rd: Readers, k: nat)
    requires k <= |files| && ParseAll(files[..k], rd).Err?
    ensures ParseAll(files, rd) == ParseAll(files[..k], rd)
    decreases |files| - k
  {
    if k < |files| {
      assert files[..k + 1][..k] == files[..k];
      FailureIsFinal(files, rd, k + 1);
    } else {
      assert files[..k] == files;
    }
  }

  /** `parseFiles`, with the loop over the files and the inner loop over each workbook's sheets. */
  method ParseFiles(files: seq<File>, rd: Readers) returns (r: Result<Parsed, Thrown>)
    ensures r == ParseResult(files, rd)
  {
    if rd.libraries.Some? {
      return Err(rd.libraries.value);
    }
    var docxContent := "";
    var xlsxData: SheetData := map[];
    var researchRequested := false;
    for i := 0 to |files|
      invariant ParseAll(files[..i], rd) == Ok(Parsed(docxContent, xlsxData, researchRequested))
    {
      var file := files[i];
      assert files[..i + 1][..i] == files[..i];
      match rd.readFile(file) {
        case Some(e) =>
          FailureIsFinal(files, rd, i + 1);
          return Err(e);
        case None =>
      }
      if EndsWith(file.name, ".docx") {
        match rd.extractText(file) {
          case Err(e) =>
            FailureIsFinal(files, rd, i + 1);
            return Err(e);
          case Ok(text) =>
            docxContent := docxContent + DocxSection(file.name, text);
            if Includes(Lower(text), "research") || Includes(Lower(text), "find information on") {
              researchRequested := true;
            }
        }
      } else if EndsWith(file.name, ".xlsx") {
        match rd.readSheets(file) {
          case Err(e) =>
            FailureIsFinal(files, rd, i + 1);
            return Err(e);
          case Ok(sheets) =>
            ghost var before := xlsxData;
            for j := 0 to |sheets|
              invariant xlsxData == AddSheets(before, file.name, sheets[..j])
            {
              assert sheets[..j + 1][..j] == sheets[..j];
              var sheet := sheets[j];
              if |sheet.rows| > 0 {
                xlsxData := xlsxData[SheetKey(file.name, sheet.name) := sheet.rows];
              }
            }
            assert sheets[..|sheets|] == sheets;
        }
      }
    }
    assert files[..|files|] == files;
    return Ok(Parsed(docxContent, xlsxData, researchRequested));
  }

  // ---------------------------------------------------------------------
  // Properties of the parse

  /** No files: empty text, no sheet, no research. */
  lemma ParseNoFiles(rd: Readers)
    requires rd.libraries.None?
    ensures ParseResult([], rd) == Ok(Parsed("", map[], false))
  {
  }

  /** The text `extractText` gives a file, when the file is a document it reads without failure. */
  predicate DocxMentionsResearch(f: File, rd: Readers)
  {
    IsDocx(f) && rd.extractText(f).Ok? && MentionsResearch(rd.extractText(f).value)
  }

  /**
   * The research flag of a successful parse is set exactly when some
   * document's text mentions research; once one does, later files cannot
   * clear it.
   */
  lemma {:induction false} ResearchIffSomeDocumentAsks(files: seq<File>, rd: Readers)
    requires ParseAll(files, rd).Ok?
    ensures ParseAll(files, rd).value.researchRequested <==>
      exists i :: 0 <= i < |files| && DocxMentionsResearch(files[i], rd)
    decreases |files|
  {
    if files != [] {
      var init := files[..|files| - 1];
      ResearchIffSomeDocumentAsks(init, rd);
      var last := files[|files| - 1];
      if exists i :: 0 <= i < |init| && DocxMentionsResearch(init[i], rd) {
        var i :| 0 <= i < |init| && DocxMentionsResearch(init[i], rd);
        assert files[i] == init[i];
      }
      if i :| 0 <= i < |files| && DocxMentionsResearch(files[i], rd) {
        if i < |init| {
          assert init[i] == files[i];
        }
      }
    }
  }

  /** Once a prefix of the files sets the research flag, the whole successful parse has it set. */
  lemma ResearchFlagSticky(files: seq<File>, rd: Readers, k: nat)
    requires k <= |files| && ParseAll(files, rd).Ok?
    requires ParseAll(files[..k], rd).Ok? && ParseAll(files[..k], rd).value.researchRequested
    ensures ParseAll(files, rd).value.researchRequested
  {
    ResearchIffSomeDocumentAsks(files[..k], rd);
    var i :| 0 <= i < k && DocxMentionsResearch(files[..k][i], rd);
    assert files[i] == files[..k][i];
    ResearchIffSomeDocumentAsks(files, rd);
  }

  /** The section each file contributes to `docxContent`: its header and text for a document, nothing otherwise. */
  function Section(f: File, rd: Readers): string
  {
    if IsDocx(f) && rd.extractText(f).Ok? then DocxSection(f.name, rd.extractText(f).value) else ""
  }

  /** The concatenation of the strings of `parts`, in order. */
  function Concat(parts: seq<string>): string
    decreases |parts|
  {
    if parts == [] then "" else Concat(parts[..|parts| - 1]) + parts[|parts| - 1]
  }

  /**
   * The text of a successful parse is the concatenation, in input order, of
   * one header-and-text section per document; workbooks and other files add
   * nothing to it.
   */
  lemma {:induction false} TextIsConcatenationOfSections(files: seq<File>, rd: Readers)
    requires ParseAll(files, rd).Ok?
    ensures ParseAll(files, rd).value.docxContent ==
      Concat(seq(|files|, i requires 0 <= i < |files| => Section(files[i], rd)))
    decreases |files|
  {
    if files != [] {
      var init := files[..|files| - 1];
      TextIsConcatenationOfSections(init, rd);
      var parts := seq(|files|, i requires 0 <= i < |files| => Section(files[i], rd));
      assert parts[..|parts| - 1] == seq(|init|, i requires 0 <= i < |init| => Section(init[i], rd));
    }
  }

  /**
   * What the spreadsheet library returns never changes the text or the
   * research flag: two runs that differ only in their workbooks agree on both.
   */
  lemma {:induction false} SheetsDoNotAffectText(files: seq<File>, rd1: Readers, rd2: Readers)
    requires forall f :: rd1.readFile(f) == rd2.readFile(f) && rd1.extractText(f) == rd2.extractText(f)
    requires ParseAll(files, rd1).Ok? && ParseAll(files, rd2).Ok?
    ensures ParseAll(files, rd1).value.docxContent == ParseAll(files, rd2).value.docxContent
    ensures ParseAll(files, rd1).value.researchRequested == ParseAll(files, rd2).value.researchRequested
    decreases |files|
  {
    if files != [] {
      SheetsDoNotAffectText(files[..|files| - 1], rd1, rd2);
    }
  }

  /** A file whose name ends in neither ".docx" nor ".xlsx" contributes nothing once it has been read. */
  lemma OtherFilesIgnored(files: seq<File>, f: File, rd: Readers)
    requires !EndsWith(f.name, ".docx") && !EndsWith(f.name, ".xlsx") && rd.readFile(f).None?
    ensures ParseAll(files + [f], rd) == ParseAll(files, rd)
  {
    assert (files + [f])[..|files|] == files;
  }

  /** Some non-empty sheet of `sheets` is stored under `key`. */
  predicate StoresKey(fileName: string, sheets: seq<Sheet>, key: string)
  {
    exists j :: 0 <= j < |sheets| && |sheets[j].rows| > 0 && key == SheetKey(fileName, sheets[j].name)
  }

  /** The keys after one workbook: the old ones and one `"<file> - <sheet>"` key per non-empty sheet; empty sheets add none. */
  lemma {:induction false} SheetKeys(data: SheetData, fileName: string, sheets: seq<Sheet>, key: string)
    ensures key in AddSheets(data, fileName, sheets) <==> key in data || StoresKey(fileName, sheets, key)
    decreases |sheets|
  {
    if sheets != [] {
      var init := sheets[..|sheets| - 1];
      SheetKeys(data, fileName, init, key);
      if StoresKey(fileName, init, key) {
        var j :| 0 <= j < |init| && |init[j].rows| > 0 && key == SheetKey(fileName, init[j].name);
        assert sheets[j] == init[j];
      }
      if StoresKey(fileName, sheets, key) {
        var j :| 0 <= j < |sheets| && |sheets[j].rows| > 0 && key == SheetKey(fileName, sheets[j].name);
        if j < |init| {
          assert init[j] == sheets[j];
        }
      }
    }
  }

  /**
   * The value stored under a sheet's key is the rows of the LAST non-empty
   * sheet with that key: a later sheet overwrites an earlier one.
   */
  lemma {:induction false} LaterSheetWins(data: SheetData, fileName: string, sheets: seq<Sheet>, j: nat)
    requires j < |sheets| && |sheets[j].rows| > 0
    requires forall j' :: j < j' < |sheets| && |sheets[j'].rows| > 0 ==>
      SheetKey(fileName, sheets[j'].name) != SheetKey(fileName, sheets[j].name)
    ensures SheetKey(fileName, sheets[j].name) in AddSheets(data, fileName, sheets)
    ensures AddSheets(data, fileName, sheets)[SheetKey(fileName, sheets[j].name)] == sheets[j].rows
    decreases |sheets|
  {
    var init := sheets[..|sheets| - 1];
    if j < |init| {
      assert init[j] == sheets[j];
      LaterSheetWins(data, fileName, init, j);
    }
  }

  /** A key that no non-empty sheet produces keeps its old value, or stays absent. */
  lemma {:induction false} OtherKeysUnchanged(data: SheetData, fileName: string, sheets: seq<Sheet>, key: string)
    requires !StoresKey(fileName, sheets, key)
    ensures key in AddSheets(data, fileName, sheets) <==> key in data
    ensures key in data ==> AddSheets(data, fileName, sheets)[key] == data[key]
    decreases |sheets|
  {
    if sheets != [] {
      var init := sheets[..|sheets| - 1];
      OtherKeysUnchanged(data, fileName, init, key);
    }
  }

  /** Every key of a successful parse names a workbook of the list followed by " - " and a sheet name. */
  lemma {:induction false} KeysNameTheirWorkbook(files: seq<File>, rd: Readers, key: string)
    requires ParseAll(files, rd).Ok? && key in ParseAll(files, rd).value.xlsxData
    ensures exists i :: 0 <= i < |files| && IsXlsx(files[i]) && StartsWith(key, files[i].name + " - ")
    decreases |files|
  {
    var init := files[..|files| - 1];
    var last := files[|files| - 1];
    var acc := ParseAll(init, rd).value;
    if key in acc.xlsxData {
      KeysNameTheirWorkbook(init, rd, key);
      var i :| 0 <= i < |init| && IsXlsx(init[i]) && StartsWith(key, init[i].name + " - ");
      assert files[i] == init[i];
    } else {
      assert IsXlsx(last);
      var sheets := rd.readSheets(last).value;
      SheetKeys(acc.xlsxData, last.name, sheets, key);
      var j :| 0 <= j < |sheets| && |sheets[j].rows| > 0 && key == SheetKey(last.name, sheets[j].name);
      assert key == (last.name + " - ") + sheets[j].name;
      assert StartsWith(key, last.name + " - ");
    }
  }
}
