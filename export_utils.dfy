/** The parts of the Excel and PDF export that are the component's own:
    the file name derived from the report title, and the sheet laid out as
    the header row followed by the data rows. Workbook building, fonts,
    table styling and the download are left to the libraries. */
module ExportUtils {

  /** A table cell: `string | number`. */
  datatype Cell = Text(s: string) | Number(n: real)

  /** `name.replace(/ /g, '_')`: every U+0020 becomes `_`; nothing else,
      tabs and other white space included, is touched. */
  function Sanitize(name: string): (stem: string)
    ensures |stem| == |name|
    ensures forall i :: 0 <= i < |name| ==> stem[i] == if name[i] == ' ' then '_' else name[i]
    ensures ' ' !in stem
  {
    if name == [] then []
    else [if name[0] == ' ' then '_' else name[0]] + Sanitize(name[1..])
  }

  /** A stem without spaces is its own sanitised form. */
  lemma {:induction false} SanitizeFixesSpaceless(name: string)
    requires ' ' !in name
    ensures Sanitize(name) == name
  {
    if name != [] {
      assert name[0] != ' ' && ' ' !in name[1..];
      SanitizeFixesSpaceless(name[1..]);
      assert name == [name[0]] + name[1..];
    }
  }

  /** Sanitising twice is sanitising once. */
  lemma SanitizeIdempotent(name: string)
    ensures Sanitize(Sanitize(name)) == Sanitize(name)
  {
    SanitizeFixesSpaceless(Sanitize(name));
  }

  /** The name `exportToExcel` saves under. */
  function ExcelFileName(fileName: string): (f: string)
    ensures |f| == |fileName| + 5
    ensures f[..|fileName|] == Sanitize(fileName) && f[|fileName|..] == ".xlsx"
  {
    Sanitize(fileName) + ".xlsx"
  }

  /** The name `exportToPdf` saves under. */
  function PdfFileName(title: string): (f: string)
    ensures |f| == |title| + 4
    ensures f[..|title|] == Sanitize(title) && f[|title|..] == ".pdf"
  {
    Sanitize(title) + ".pdf"
  }

  /** Both exports of one report share the stem and differ only in the
      extension. */
  lemma SameStem(title: string)
    ensures ExcelFileName(title)[..|title|] == PdfFileName(title)[..|title|]
    ensures ' ' !in ExcelFileName(title) && ' ' !in PdfFileName(title)
  {
    assert ExcelFileName(title) == Sanitize(title) + ".xlsx";
    assert PdfFileName(title) == Sanitize(title) + ".pdf";
  }

  function HeaderCells(headers: seq<string>): (cells: seq<Cell>)
    ensures |cells| == |headers|
    ensures forall j :: 0 <= j < |headers| ==> cells[j] == Text(headers[j])
  {
    if headers == [] then [] else [Text(headers[0])] + HeaderCells(headers[1..])
  }

  /** `[headers, ...rows]`, the array of arrays the sheet is built from. */
  function SheetRows(headers: seq<string>, rows: seq<seq<Cell>>): (aoa: seq<seq<Cell>>)
    ensures |aoa| == |rows| + 1
    ensures aoa[0] == HeaderCells(headers)
    ensures forall i :: 0 <= i < |rows| ==> aoa[i + 1] == rows[i]
  {
    [HeaderCells(headers)] + rows
  }

  /** The sheet has one header row of two columns and one data row,
      exactly as received. */
  method PeriodSheetScenario() {
    var aoa := SheetRows(["Name", "Days"], [[Text("Ali"), Number(20.0)]]);
    assert |aoa| == 2 && aoa[0] == [Text("Name"), Text("Days")];
    assert aoa[1] == [Text("Ali"), Number(20.0)];
  }
}
