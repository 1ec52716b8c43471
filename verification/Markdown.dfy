/** `to_markdown`, and the rows a reader of the transcript sees. */
module Markdown {
  import opened Text
  import opened Document

  // ----- printing

  function PageMarker(page: nat): string {
    "<!-- page " + Digits(page) + " -->"
  }

  /** What a line adds to the transcript after a line of page `page`. */
  function Printed(page: nat, line: Line): string {
    (if line.page != page then "\n" + PageMarker(line.page) + "\n" else "")
    + if line.kind == Heading then "\n## " + line.text + "\n\n" else line.text + "\n"
  }

  function LastPage(lines: seq<Line>): nat {
    if lines == [] then 0 else lines[|lines| - 1].page
  }

  function Render(lines: seq<Line>): string {
    if lines == [] then ""
    else
      var init := lines[..|lines| - 1];
      Render(init) + Printed(LastPage(init), lines[|lines| - 1])
  }

  /** The body of the loop of `to_markdown`, over one line. */
  method PrintLine(before: string, page: nat, line: Line) returns (out: string, newPage: nat)
    ensures out == before + Printed(page, line) && newPage == line.page
  {
    out, newPage := before, page;
    if line.page != page {
      newPage := line.page;
      out := out + ("\n" + PageMarker(newPage) + "\n");
    }
    match line.kind {
      case Heading => out := out + ("\n## " + line.text + "\n\n");
      case _ =>
        ghost var start := out;
        out := out + line.text;
        out := out + "\n";
        assert out == start + (line.text + "\n");
    }
  }

  /** `to_markdown`. */
  method ToMarkdown(doc: ExtractedDocument) returns (out: string)
    ensures out == Render(doc.lines)
  {
    out := "";
    var page := 0;
    for k := 0 to |doc.lines|
      invariant page == LastPage(doc.lines[..k])
      invariant out == Render(doc.lines[..k])
    {
      assert doc.lines[..k + 1][..k] == doc.lines[..k];
      out, page := PrintLine(out, page, doc.lines[k]);
    }
    assert doc.lines[..|doc.lines|] == doc.lines;
  }

  // ----- rows

  /** The rows a line adds. */
  function RowsOf(page: nat, line: Line): seq<string> {
    (if line.page != page then ["", PageMarker(line.page)] else [])
    + if line.kind == Heading then ["", "## " + line.text, ""] else [line.text]
  }

  function Rows(lines: seq<Line>): seq<string> {
    if lines == [] then []
    else
      var init := lines[..|lines| - 1];
      Rows(init) + RowsOf(LastPage(init), lines[|lines| - 1])
  }

  /** Each row ended by a newline. */
  function Unlines(rows: seq<string>): string {
    if rows == [] then "" else Unlines(rows[..|rows| - 1]) + (rows[|rows| - 1] + "\n")
  }

  /** A row that `Lines` gives back as it is. */
  predicate PlainRow(row: string) {
    OneLine(row) && (row != "" ==> row[|row| - 1] != '\r')
  }

  lemma UnlinesSnoc(rows: seq<string>, row: string)
    ensures Unlines(rows + [row]) == Unlines(rows) + (row + "\n")
  {
    assert (rows + [row])[..|rows|] == rows;
  }

  lemma {:induction false} UnlinesCons(row: string, rows: seq<string>)
    ensures Unlines([row] + rows) == (row + "\n") + Unlines(rows)
  {
    if rows == [] {
      assert [row] + rows == [] + [row];
      UnlinesSnoc([], row);
    } else {
      var init, last := rows[..|rows| - 1], rows[|rows| - 1];
      UnlinesCons(row, init);
      UnlinesSnoc([row] + init, last);
      assert ([row] + init) + [last] == [row] + rows;
      assert ((row + "\n") + Unlines(init)) + (last + "\n") == (row + "\n") + (Unlines(init) + (last + "\n"));
    }
  }

  /** Reading lines undoes writing them. */
  lemma {:induction false} LinesOfUnlines(rows: seq<string>)
    requires forall row :: row in rows ==> PlainRow(row)
    ensures Lines(Unlines(rows)) == rows
  {
    if rows != [] {
      var row, rest := rows[0], rows[1..];
      assert rows == [row] + rest;
      assert PlainRow(row);
      forall other | other in rest ensures PlainRow(other) { assert other in rows; }
      LinesOfUnlines(rest);
      UnlinesCons(row, rest);
      LinesOfLine(row, Unlines(rest));
    }
  }

  lemma UnlinesTwo(rows: seq<string>, a: string, b: string)
    ensures Unlines(rows + [a, b]) == Unlines(rows) + (a + "\n" + b + "\n")
  {
    UnlinesSnoc(rows, a);
    UnlinesSnoc(rows + [a], b);
    assert rows + [a, b] == (rows + [a]) + [b];
    assert (Unlines(rows) + (a + "\n")) + (b + "\n") == Unlines(rows) + (a + "\n" + b + "\n");
  }

  lemma UnlinesMarker(rows: seq<string>, page: nat)
    ensures Unlines(rows + ["", PageMarker(page)]) == Unlines(rows) + ("\n" + PageMarker(page) + "\n")
  {
    UnlinesTwo(rows, "", PageMarker(page));
    assert "" + "\n" + PageMarker(page) + "\n" == "\n" + PageMarker(page) + "\n";
  }

  lemma UnlinesHeading(rows: seq<string>, text: string)
    ensures Unlines(rows + ["", "## " + text, ""]) == Unlines(rows) + ("\n## " + text + "\n\n")
  {
    UnlinesTwo(rows, "", "## " + text);
    UnlinesSnoc(rows + ["", "## " + text], "");
    assert rows + ["", "## " + text, ""] == (rows + ["", "## " + text]) + [""];
    assert ("" + "\n" + ("## " + text) + "\n") + ("" + "\n") == "\n## " + text + "\n\n";
  }

  lemma UnlinesOneMore(rows: seq<string>, page: nat, line: Line)
    ensures Unlines(rows + RowsOf(page, line)) == Unlines(rows) + Printed(page, line)
  {
    var marks := if line.page != page then ["", PageMarker(line.page)] else [];
    var marked := rows + marks;
    if line.page != page { UnlinesMarker(rows, line.page); } else { assert marked == rows; }
    if line.kind == Heading {
      UnlinesHeading(marked, line.text);
      assert marked + ["", "## " + line.text, ""] == rows + RowsOf(page, line);
    } else {
      UnlinesSnoc(marked, line.text);
      assert marked + [line.text] == rows + RowsOf(page, line);
    }
  }

  /** The transcript is its rows. */
  lemma {:induction false} MarkdownIsRows(lines: seq<Line>)
    ensures Render(lines) == Unlines(Rows(lines))
  {
    if lines != [] {
      var init := lines[..|lines| - 1];
      MarkdownIsRows(init);
      UnlinesOneMore(Rows(init), LastPage(init), lines[|lines| - 1]);
    }
  }
}
