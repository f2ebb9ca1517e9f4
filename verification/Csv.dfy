/** The CSV export, and a reader of the quoting rules of section 2 of RFC 4180 with records ended by a line feed. */
module Csv {
  import opened Options
  import opened Strings

  // ----- writing

  predicate NeedsQuotes(cell: string) {
    ',' in cell || '"' in cell || '\n' in cell
  }

  function Cell(cell: string): string {
    if NeedsQuotes(cell) then "\"" + Replace(cell, '"', "\"\"") + "\"" else cell
  }

  /** Cells joined by commas. */
  function Line(cells: seq<string>): string {
    if cells == [] then "" else if |cells| == 1 then Cell(cells[0]) else Cell(cells[0]) + "," + Line(cells[1..])
  }

  /** Lines joined by line feeds, with one more at the end. */
  function Serialize(table: seq<seq<string>>): string {
    if table == [] then "" else Line(table[0]) + "\n" + Serialize(table[1..])
  }

  // ----- reading

  /** Up to the quote that closes the cell; a doubled quote stands for one. */
  function ReadQuoted(s: string): Option<(string, string)> {
    if s == "" then None
    else if s[0] != '"' then Prepend(s[0], ReadQuoted(s[1..]))
    else if |s| > 1 && s[1] == '"' then Prepend('"', ReadQuoted(s[2..]))
    else Some(("", s[1..]))
  }

  function Prepend(c: char, r: Option<(string, string)>): Option<(string, string)> {
    match r
    case None => None
    case Some((cell, rest)) => Some(([c] + cell, rest))
  }

  /** Up to the next comma or line feed. */
  function ReadPlain(s: string): (string, string) {
    if s == "" || s[0] == ',' || s[0] == '\n' then ("", s)
    else
      var (cell, rest) := ReadPlain(s[1..]);
      ([s[0]] + cell, rest)
  }

  function ReadCell(s: string): (r: Option<(string, string)>)
    ensures r.Some? ==> |r.value.1| <= |s|
  {
    if s != "" && s[0] == '"' then QuotedShorter(s[1..]); ReadQuoted(s[1..])
    else PlainShorter(s); Some(ReadPlain(s))
  }

  lemma QuotedShorter(s: string)
    ensures ReadQuoted(s).Some? ==> |ReadQuoted(s).value.1| < |s|
  {
  }

  lemma PlainShorter(s: string)
    ensures |ReadPlain(s).1| <= |s|
  {
  }

  /** One record: cells separated by commas, ended by a line feed. */
  function ReadRow(s: string): (r: Option<(seq<string>, string)>)
    ensures r.Some? ==> |r.value.1| < |s|
    decreases |s|
  {
    match ReadCell(s)
    case None => None
    case Some((cell, rest)) =>
      if rest != "" && rest[0] == '\n' then Some(([cell], rest[1..]))
      else if rest != "" && rest[0] == ',' then
        (match ReadRow(rest[1..])
         case None => None
         case Some((cells, tail)) => Some(([cell] + cells, tail)))
      else None
  }

  function ReadTable(s: string): Option<seq<seq<string>>>
    decreases |s|
  {
    if s == "" then Some([])
    else
      match ReadRow(s)
      case None => None
      case Some((cells, rest)) =>
        match ReadTable(rest)
        case None => None
        case Some(rows) => Some([cells] + rows)
  }

  // ----- the round trip

  predicate EndsCell(rest: string) {
    rest != "" && (rest[0] == ',' || rest[0] == '\n')
  }

  lemma {:induction false} QuotedBack(cell: string, rest: string)
    requires EndsCell(rest)
    ensures ReadQuoted(Replace(cell, '"', "\"\"") + "\"" + rest) == Some((cell, rest))
  {
    var s := Replace(cell, '"', "\"\"") + "\"" + rest;
    if cell == "" {
      assert s == "\"" + rest;
      assert s[0] == '"' && s[1..] == rest;
    } else {
      var tail := Replace(cell[1..], '"', "\"\"") + "\"" + rest;
      QuotedBack(cell[1..], rest);
      assert cell == [cell[0]] + cell[1..];
      if cell[0] == '"' {
        assert s == "\"\"" + tail;
        assert s[0] == '"' && s[1] == '"' && s[2..] == tail;
      } else {
        assert s == [cell[0]] + tail;
        assert s[0] == cell[0] && s[1..] == tail;
      }
    }
  }

  lemma {:induction false} PlainBack(cell: string, rest: string)
    requires EndsCell(rest) && !NeedsQuotes(cell)
    ensures ReadPlain(cell + rest) == (cell, rest)
  {
    if cell == "" {
      assert cell + rest == rest;
    } else {
      assert (cell + rest)[0] == cell[0] && (cell + rest)[1..] == cell[1..] + rest;
      PlainBack(cell[1..], rest);
      assert cell == [cell[0]] + cell[1..];
    }
  }

  lemma CellBack(cell: string, rest: string)
    requires EndsCell(rest)
    ensures ReadCell(Cell(cell) + rest) == Some((cell, rest))
  {
    hide ReadQuoted, ReadPlain, Replace;
    var s := Cell(cell) + rest;
    if NeedsQuotes(cell) {
      QuotedBack(cell, rest);
      var inner := Replace(cell, '"', "\"\"");
      assert s == "\"" + (inner + "\"" + rest);
    } else {
      PlainBack(cell, rest);
      assert s[0] == if cell == "" then rest[0] else cell[0];
      assert cell != "" ==> cell[0] in cell;
    }
  }

  lemma {:induction false} RowBack(cells: seq<string>, rest: string)
    requires cells != []
    ensures ReadRow(Line(cells) + "\n" + rest) == Some((cells, rest))
  {
    hide Cell, ReadCell;
    var s := Line(cells) + "\n" + rest;
    if |cells| == 1 {
      var tail := "\n" + rest;
      assert s == Cell(cells[0]) + tail && tail[1..] == rest;
      CellBack(cells[0], tail);
      assert cells == [cells[0]];
    } else {
      var tail := "," + (Line(cells[1..]) + "\n" + rest);
      assert s == Cell(cells[0]) + tail && tail[1..] == Line(cells[1..]) + "\n" + rest;
      CellBack(cells[0], tail);
      RowBack(cells[1..], rest);
      assert cells == [cells[0]] + cells[1..];
    }
  }

  /** A reader recovers exactly the cells, whatever commas, quotes and line feeds they contain. */
  lemma {:induction false} TableBack(table: seq<seq<string>>)
    requires forall row <- table :: row != []
    ensures ReadTable(Serialize(table)) == Some(table)
  {
    hide Line, ReadRow;
    if table != [] {
      assert table[0] in table;
      forall row | row in table[1..] ensures row != [] { assert row in table; }
      RowBack(table[0], Serialize(table[1..]));
      TableBack(table[1..]);
      assert table == [table[0]] + table[1..];
    }
  }

  /** A cell is quoted when it has to be, and only then. */
  lemma QuotedWhenNeeded(cell: string)
    ensures Cell(cell) == cell <==> ',' !in cell && '"' !in cell && '\n' !in cell
    ensures Cell(cell) != cell ==> |Cell(cell)| >= 2 && Cell(cell)[0] == '"' == Cell(cell)[|Cell(cell)| - 1]
  {
    hide Replace;
    Longer(cell);
  }

  lemma {:induction false} Longer(cell: string)
    ensures |Replace(cell, '"', "\"\"")| >= |cell|
  {
    if cell != "" {
      Longer(cell[1..]);
    }
  }

  /** So different tables are never exported to the same text. */
  lemma Unambiguous(a: seq<seq<string>>, b: seq<seq<string>>)
    requires (forall row <- a :: row != []) && (forall row <- b :: row != [])
    ensures Serialize(a) == Serialize(b) <==> a == b
  {
    TableBack(a);
    TableBack(b);
  }
}
