/**
 PDF page normalisation (src/docextractors/pdfextractor/pdfparser.py).

 pdfplumber's outputs are inputs here: a page's text is `Some(text)`, or `None`
 when `page.extract_text()` raises; `table.extract()` and
 `page.extract_tables()` are sequences of rows of optional cells.
 */
module PdfParser {
  import opened Wrappers

  type Cell = Option<string>
  type Row = seq<Cell>
  type Table = seq<Row>

  /** One page as pdfplumber presents it. */
  datatype Page = Page(text: Option<string>, tables: seq<Table>)

  /** `PageData`; the source's field `method` is `methodName` here. */
  datatype PageData = PageData(pageNumber: int, text: string, tables: seq<Table>, methodName: string)

  const ParserMethod: string := "pdfplumber"

  // ---------------------------------------------------------------------
  // Non-ASCII stripping: NON_LATIN_RE.sub("", text)

  /** Characters the class `[\x00-\x7f]` matches. */
  predicate IsAscii(c: char) {
    c as int <= 0x7f
  }

  predicate AllAscii(s: string) {
    forall i :: 0 <= i < |s| ==> IsAscii(s[i])
  }

  /** Deletes every character outside U+0000..U+007F. */
  function StripNonLatin(s: string): (r: string)
    ensures AllAscii(r)
    ensures |r| <= |s|
  {
    if s == [] then []
    else (if IsAscii(s[0]) then [s[0]] else []) + StripNonLatin(s[1..])
  }

  /** Stripping works piece by piece, so it keeps the order of what it keeps. */
  lemma {:induction false} StripNonLatinAppend(a: string, b: string)
    ensures StripNonLatin(a + b) == StripNonLatin(a) + StripNonLatin(b)
  {
    if a != [] {
      assert (a + b)[1..] == a[1..] + b;
      StripNonLatinAppend(a[1..], b);
      assert [a[0]] + a[1..] == a;
    } else {
      assert a + b == b;
    }
  }

  /** Each ASCII character is kept as often as it occurs; no other character
      is left. */
  lemma {:induction false} StripNonLatinCounts(s: string, c: char)
    ensures multiset(StripNonLatin(s))[c] == if IsAscii(c) then multiset(s)[c] else 0
  {
    if s != [] {
      StripNonLatinCounts(s[1..], c);
      assert s == [s[0]] + s[1..];
    }
  }

  /** ASCII text is left as it is. */
  lemma {:induction false} StripNonLatinKeepsAscii(s: string)
    requires AllAscii(s)
    ensures StripNonLatin(s) == s
  {
    if s != [] {
      assert IsAscii(s[0]);
      StripNonLatinKeepsAscii(s[1..]);
    }
  }

  /** Stripping stripped text changes nothing. */
  lemma StripNonLatinIdempotent(s: string)
    ensures StripNonLatin(StripNonLatin(s)) == StripNonLatin(s)
  {
    StripNonLatinKeepsAscii(StripNonLatin(s));
  }

  /** `extract_text_from_pdf(page, remove_non_latin)`: a generator that yields
      the page text, stripped when asked, or yields nothing when extraction
      raises. `remove_non_latin` defaults to True in the source, so the
      one-argument call is `ExtractTextFromPdf(page, true)`. */
  function ExtractTextFromPdf(page: Page, removeNonLatin: bool): (texts: seq<string>)
    ensures |texts| <= 1
    ensures texts == [] <==> page.text.None?
    ensures page.text.Some? && !removeNonLatin ==> texts == [page.text.value]
    ensures page.text.Some? && removeNonLatin ==> texts == [StripNonLatin(page.text.value)]
    ensures removeNonLatin ==> forall t :: t in texts ==> AllAscii(t)
  {
    match page.text
    case None => []
    case Some(text) => [if removeNonLatin then StripNonLatin(text) else text]
  }

  // ---------------------------------------------------------------------
  // Cell and row filter of extract_table_rows

  /** Characters Python's `str.strip()` removes (`str.isspace`). */
  predicate IsSpace(c: char)
    ensures IsSpace(c) && IsAscii(c) ==> 9 <= c as int <= 32
    ensures IsSpace(c) ==> !('0' <= c <= '9') && !('a' <= c <= 'z') && !('A' <= c <= 'Z')
  {
    || c == ' ' || c == '\t' || c == '\n' || c == '\r' || c == 11 as char || c == 12 as char
    || (0x1c <= c as int <= 0x1f) || c as int == 0x85 || c as int == 0xa0
    || c as int == 0x1680 || (0x2000 <= c as int <= 0x200a)
    || c as int == 0x2028 || c as int == 0x2029 || c as int == 0x202f
    || c as int == 0x205f || c as int == 0x3000
  }

  /** Empty or whitespace only. */
  predicate IsBlank(s: string) {
    forall i :: 0 <= i < |s| ==> IsSpace(s[i])
  }

  /** `s.lstrip()`: drops the leading whitespace. */
  function StripLeading(s: string): (r: string)
    ensures |r| <= |s| && r == s[|s| - |r|..]
    ensures forall i :: 0 <= i < |s| - |r| ==> IsSpace(s[i])
    ensures r == [] || !IsSpace(r[0])
  {
    if s != [] && IsSpace(s[0]) then StripLeading(s[1..]) else s
  }

  /** `s.rstrip()`: drops the trailing whitespace. */
  function StripTrailing(s: string): (r: string)
    ensures |r| <= |s| && r == s[..|r|]
    ensures forall i :: |r| <= i < |s| ==> IsSpace(s[i])
    ensures r == [] || !IsSpace(r[|r| - 1])
  {
    if s != [] && IsSpace(s[|s| - 1]) then StripTrailing(s[..|s| - 1]) else s
  }

  /** `s.strip()`. */
  function Strip(s: string): string {
    StripTrailing(StripLeading(s))
  }

  /** `s.strip()` is empty exactly when `s` is empty or whitespace only. */
  lemma StripEmptyIffBlank(s: string)
    ensures Strip(s) == [] <==> IsBlank(s)
  {
  }

  /** `cell and cell.strip()`: the cell is not None, not empty, and not
      empty once stripped; that is, a string with a non-space character. */
  predicate Keeps(cell: Cell)
    ensures Keeps(cell) <==> cell.Some? && !IsBlank(cell.value)
  {
    cell.Some? && cell.value != [] && (StripEmptyIffBlank(cell.value); Strip(cell.value) != [])
  }

  /** `[cell for cell in row if cell and cell.strip()]`. */
  function KeepCells(row: Row): (cells: seq<string>)
    ensures |cells| <= |row|
    ensures forall j :: 0 <= j < |cells| ==> !IsBlank(cells[j])
  {
    if row == [] then []
    else (if Keeps(row[0]) then [row[0].value] else []) + KeepCells(row[1..])
  }

  /** The filter works cell by cell, so kept cells stay in order. */
  lemma {:induction false} KeepCellsAppend(a: Row, b: Row)
    ensures KeepCells(a + b) == KeepCells(a) + KeepCells(b)
  {
    if a != [] {
      assert (a + b)[1..] == a[1..] + b;
      KeepCellsAppend(a[1..], b);
    } else {
      assert a + b == b;
    }
  }

  /** Each non-blank string occurs among the kept cells exactly as often as it
      occurs as a cell, untrimmed; blank strings never occur. */
  lemma {:induction false} KeepCellsCounts(row: Row, s: string)
    ensures multiset(KeepCells(row))[s] == if IsBlank(s) then 0 else multiset(row)[Some(s)]
  {
    if row != [] {
      KeepCellsCounts(row[1..], s);
      assert row == [row[0]] + row[1..];
    }
  }

  /** A row is dropped exactly when none of its cells is kept. */
  lemma {:induction false} KeepCellsEmpty(row: Row)
    ensures KeepCells(row) == [] <==> forall j :: 0 <= j < |row| ==> !Keeps(row[j])
  {
    if row != [] {
      KeepCellsEmpty(row[1..]);
      assert forall j :: 1 <= j < |row| ==> row[j] == row[1..][j - 1];
    }
  }

  /** The rows `extract_table_rows` yields for `table.extract()`: each row's
      kept cells, with rows left empty dropped. */
  function TableRows(table: Table): (rows: seq<seq<string>>)
    ensures |rows| <= |table|
    ensures forall k :: 0 <= k < |rows| ==> rows[k] != []
    ensures forall k, j :: 0 <= k < |rows| && 0 <= j < |rows[k]| ==> !IsBlank(rows[k][j])
  {
    if table == [] then []
    else
      var cells := KeepCells(table[|table| - 1]);
      TableRows(table[..|table| - 1]) + (if cells == [] then [] else [cells])
  }

  /** The row filter works row by row, so surviving rows keep their order. */
  lemma {:induction false} TableRowsAppend(a: Table, b: Table)
    ensures TableRows(a + b) == TableRows(a) + TableRows(b)
  {
    if b != [] {
      var b' := b[..|b| - 1];
      assert (a + b)[..|a + b| - 1] == a + b';
      assert (a + b)[|a + b| - 1] == b[|b| - 1];
      TableRowsAppend(a, b');
    } else {
      assert a + b == a;
    }
  }

  /** `extract_table_rows(table)`, given `table.extract()`. */
  method ExtractTableRows(table: Table) returns (rows: seq<seq<string>>)
    ensures rows == TableRows(table)
  {
    rows := [];
    var rowCount := 0;  // counted in the source, never read
    for i := 0 to |table|
      invariant rows == TableRows(table[..i])
    {
      assert table[..i + 1][..i] == table[..i];
      rowCount := rowCount + 1;
      var cells := KeepCells(table[i]);
      if cells != [] {
        rows := rows + [cells];
      }
    }
    assert table[..|table|] == table;
  }

  // ---------------------------------------------------------------------
  // Page enumeration of parse

  /** `parse`, given the opened document's pages: one PageData per page, in
      order, numbered from 0, with the raw text and the unfiltered tables. When
      a page's text extraction raises, the generator stops with that
      exception after the pages before it; `failed` reports that. */
  method Parse(pages: seq<Page>) returns (records: seq<PageData>, failed: bool)
    ensures |records| <= |pages|
    ensures forall i :: 0 <= i < |records| ==>
              pages[i].text.Some? &&
              records[i] == PageData(i, pages[i].text.value, pages[i].tables, ParserMethod)
    ensures !failed ==> |records| == |pages|
    ensures failed ==> |records| < |pages| && pages[|records|].text.None?
    ensures failed <==> exists i :: 0 <= i < |pages| && pages[i].text.None?
  {
    records, failed := [], false;
    var pageNumber := 0;
    while pageNumber < |pages|
      invariant 0 <= pageNumber <= |pages|
      invariant |records| == pageNumber
      invariant forall i :: 0 <= i < pageNumber ==>
                  pages[i].text.Some? &&
                  records[i] == PageData(i, pages[i].text.value, pages[i].tables, ParserMethod)
    {
      var page := pages[pageNumber];
      if page.text.None? {
        failed := true;
        return;
      }
      records := records + [PageData(pageNumber, page.text.value, page.tables, ParserMethod)];
      pageNumber := pageNumber + 1;
    }
  }
}
