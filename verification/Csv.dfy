/** The CSV reader and printer of `src/lib/csv.ts`. */
module Csv {
  import opened Text

  type Cells = seq<string>

  datatype CsvError = UnterminatedQuote | TooFewRows | NoNameColumn
  datatype Result<T> = Ok(value: T) | Err(error: CsvError)

  // ---------------------------------------------------------------------------------------------
  // Scanning

  /** A carriage return before the line end disappears whether or not it was chopped first. */
  function ChopReturn(s: string): string {
    if s != "" && s[|s| - 1] == '\r' then s[..|s| - 1] else s
  }

  // ---------------------------------------------------------------------------------------------
  // Reading

  predicate Kept(row: Cells) {
    exists i :: 0 <= i < |row| && row[i] != ""
  }

  function IfKept(row: Cells): seq<Cells> {
    if Kept(row) then [row] else []
  }

  function Ended(row: Cells, field: string): Cells {
    row + [Trim(ChopReturn(field))]
  }

  function Prepend(rows: seq<Cells>, more: Result<seq<Cells>>): Result<seq<Cells>> {
    if more.Ok? then Ok(rows + more.value) else more
  }

  /** The scanner from a state with `row`, `field` and `quoted` on; `Err` when a quote stays open. */
  function Scan(input: string, row: Cells, field: string, quoted: bool): Result<seq<Cells>>
    decreases |input|
  {
    if input == "" then if quoted then Err(UnterminatedQuote) else Ok(IfKept(Ended(row, field)))
    else
      var c, rest := input[0], input[1..];
      if quoted then
        if c == '"' && rest != "" && rest[0] == '"' then Scan(rest[1..], row, field + "\"", true)
        else if c == '"' then Scan(rest, row, field, false)
        else Scan(rest, row, field + [c], true)
      else if c == '"' then Scan(rest, row, field, true)
      else if c == ',' then Scan(rest, row + [field], "", false)
      else if c == '\n' then Prepend(IfKept(Ended(row, field)), Scan(rest, [], "", false))
      else Scan(rest, row, field + [c], false)
  }

  lemma NothingPrepended(r: Result<seq<Cells>>)
    ensures Prepend([], r) == r
  {
    if r.Ok? { assert [] + r.value == r.value; }
  }

  lemma PrependTwice(a: seq<Cells>, b: seq<Cells>, r: Result<seq<Cells>>)
    ensures Prepend(a, Prepend(b, r)) == Prepend(a + b, r)
    ensures b == [] ==> a + b == a
  {
    if r.Ok? { assert a + (b + r.value) == a + b + r.value; }
  }

  /** The scanning loop of `parseCsv`. */
  method ScanRows(input: string) returns (r: Result<seq<Cells>>)
    ensures r == Scan(input, [], "", false)
  {
    var rows: seq<Cells>, row: Cells, field, quoted := [], [], "", false;
    var index := 0;
    assert input[0..] == input;
    NothingPrepended(Scan(input, [], "", false));
    while index < |input|
      invariant 0 <= index <= |input|
      invariant Scan(input, [], "", false) == Prepend(rows, Scan(input[index..], row, field, quoted))
    {
      var c := input[index];
      ghost var rest := input[index..];
      assert rest[0] == c && rest[1..] == input[index + 1..];
      if quoted {
        if c == '"' && index + 1 < |input| && input[index + 1] == '"' {
          assert rest[1..][1..] == input[index + 2..];
          field := field + "\"";
          index := index + 1;
        } else if c == '"' {
          quoted := false;
        } else {
          field := field + [c];
        }
        index := index + 1;
        continue;
      }
      if c == '"' {
        quoted := true;
      } else if c == ',' {
        row := row + [field];
        field := "";
      } else if c == '\n' {
        row := row + [Trim(ChopReturn(field))];
        PrependTwice(rows, IfKept(row), Scan(input[index + 1..], [], "", false));
        if Kept(row) { rows := rows + [row]; }
        row, field := [], "";
      } else {
        field := field + [c];
      }
      index := index + 1;
    }
    assert input[index..] == "";
    if quoted { return Err(UnterminatedQuote); }
    row := row + [Trim(ChopReturn(field))];
    assert rows + [] == rows;
    if Kept(row) { rows := rows + [row]; }
    r := Ok(rows);
  }

  function Quotes(input: string): nat {
    if input == "" then 0 else (if input[0] == '"' then 1 else 0) + Quotes(input[1..])
  }

  /** The scanner fails exactly when the number of quotation marks is odd. */
  lemma {:induction false} FailsOnOddQuotes(input: string, row: Cells, field: string, quoted: bool)
    ensures Scan(input, row, field, quoted).Err? <==> (Quotes(input) + if quoted then 1 else 0) % 2 == 1
    decreases |input|
  {
    hide Ended, IfKept;
    if input != "" {
      var c, rest := input[0], input[1..];
      assert Quotes(input) == (if c == '"' then 1 else 0) + Quotes(rest);
      if quoted {
        if c == '"' && rest != "" && rest[0] == '"' { FailsOnOddQuotes(rest[1..], row, field + "\"", true); }
        else if c == '"' { FailsOnOddQuotes(rest, row, field, false); }
        else { FailsOnOddQuotes(rest, row, field + [c], true); }
      } else if c == '"' { FailsOnOddQuotes(rest, row, field, true); }
      else if c == ',' { FailsOnOddQuotes(rest, row + [field], "", false); }
      else if c == '\n' { FailsOnOddQuotes(rest, [], "", false); }
      else { FailsOnOddQuotes(rest, row, field + [c], false); }
    }
  }

  // ---------------------------------------------------------------------------------------------
  // Printing

  predicate Special(c: char) {
    c == '"' || c == ',' || c == '\r' || c == '\n'
  }

  predicate NeedsQuotes(text: string) {
    exists i :: 0 <= i < |text| && Special(text[i])
  }

  function Escape(text: string): string {
    if text == "" then "" else (if text[0] == '"' then "\"\"" else [text[0]]) + Escape(text[1..])
  }

  function Cell(text: string): string {
    if NeedsQuotes(text) then "\"" + Escape(text) + "\"" else text
  }

  lemma {:induction false} EscapedIsLonger(text: string)
    ensures |Escape(text)| >= |text|
  {
    if text != "" { EscapedIsLonger(text[1..]); }
  }

  /** A cell is printed as it is exactly when it holds no quotation mark, comma or line end. */
  lemma NoNeedlessQuotes(text: string)
    ensures Cell(text) == text <==> forall c :: c in text ==> c !in {'"', ',', '\r', '\n'}
  {
    EscapedIsLonger(text);
    if NeedsQuotes(text) {
      var i :| 0 <= i < |text| && Special(text[i]);
      assert text[i] in text && |Cell(text)| > |text|;
    }
  }

  /** `csvLine` of values already turned into text. */
  function CsvLine(values: Cells): string {
    if values == [] then "" else if |values| == 1 then Cell(values[0]) else Cell(values[0]) + "," + CsvLine(values[1..])
  }

  /** The report: every line ends with CRLF. */
  function Report(table: seq<Cells>): string {
    if table == [] then "" else CsvLine(table[0]) + "\r\n" + Report(table[1..])
  }

  /** The lines joined with CRLF, without one at the end. */
  function Joined(table: seq<Cells>): string {
    if table == [] then ""
    else if |table| == 1 then CsvLine(table[0]) else CsvLine(table[0]) + "\r\n" + Joined(table[1..])
  }

  // ---------------------------------------------------------------------------------------------
  // Round trips

  lemma {:induction false} PlainText(text: string, rest: string, row: Cells, field: string)
    requires !NeedsQuotes(text)
    ensures Scan(text + rest, row, field, false) == Scan(rest, row, field + text, false)
    decreases |text|
  {
    if text == "" {
      assert text + rest == rest && field + text == field;
    } else {
      assert !Special(text[0]);
      assert (text + rest)[1..] == text[1..] + rest;
      assert !NeedsQuotes(text[1..]) by { assert forall i :: 0 <= i < |text| - 1 ==> text[1..][i] == text[i + 1]; }
      PlainText(text[1..], rest, row, field + [text[0]]);
      assert field + [text[0]] + text[1..] == field + text;
    }
  }

  lemma QuotedCharacter(c: char, more: string, row: Cells, field: string)
    ensures Scan((if c == '"' then "\"\"" else [c]) + more, row, field, true) == Scan(more, row, field + [c], true)
  {
    if c == '"' {
      assert ("\"\"" + more)[1..] == "\"" + more && ("\"" + more)[1..] == more;
    } else {
      assert ([c] + more)[1..] == more;
    }
  }

  lemma ClosingQuote(rest: string, row: Cells, field: string)
    requires rest == "" || rest[0] != '"'
    ensures Scan("\"" + rest, row, field, true) == Scan(rest, row, field, false)
  {
    assert ("\"" + rest)[1..] == rest;
  }

  lemma EscapeUnfolds(text: string)
    ensures Escape(text) == if text == "" then ""
                            else (if text[0] == '"' then "\"\"" else [text[0]]) + Escape(text[1..])
  {
  }

  lemma {:induction false} QuotedText(text: string, rest: string, row: Cells, field: string)
    requires rest == "" || rest[0] != '"'
    ensures Scan(Escape(text) + "\"" + rest, row, field, true) == Scan(rest, row, field + text, false)
    decreases |text|
  {
    hide Scan, Escape;
    EscapeUnfolds(text);
    if text == "" {
      ClosingQuote(rest, row, field);
      assert Escape(text) + "\"" + rest == "\"" + rest && field + text == field;
    } else {
      var head := if text[0] == '"' then "\"\"" else [text[0]];
      var more := Escape(text[1..]) + "\"" + rest;
      assert Escape(text) + "\"" + rest == head + more;
      QuotedCharacter(text[0], more, row, field);
      QuotedText(text[1..], rest, row, field + [text[0]]);
      assert field + [text[0]] + text[1..] == field + text;
    }
  }

  lemma OpeningQuote(inner: string, row: Cells)
    ensures Scan("\"" + inner, row, "", false) == Scan(inner, row, "", true)
  {
    assert ("\"" + inner)[1..] == inner;
  }

  /** Any cell reads back as it was, whatever it contains. */
  lemma CellRoundTrip(text: string, rest: string, row: Cells)
    requires rest == "" || rest[0] != '"'
    ensures Scan(Cell(text) + rest, row, "", false) == Scan(rest, row, text, false)
  {
    hide Scan, NeedsQuotes;
    assert "" + text == text;
    if NeedsQuotes(text) {
      var inner := Escape(text) + "\"" + rest;
      assert Cell(text) + rest == "\"" + inner;
      OpeningQuote(inner, row);
      QuotedText(text, rest, row, "");
    } else {
      PlainText(text, rest, row, "");
    }
  }

  function TrimLast(row: Cells): Cells {
    if row == [] then [] else row[..|row| - 1] + [Trim(row[|row| - 1])]
  }

  /** What a table reads back as: the last cell of each row trimmed, then rows without content dropped. */
  function ReadBack(table: seq<Cells>): seq<Cells> {
    if table == [] then [] else IfKept(TrimLast(table[0])) + ReadBack(table[1..])
  }

  lemma LineEnds(text: string, rest: string, row: Cells)
    ensures Scan("\r\n" + rest, row, text, false) == Prepend(IfKept(row + [Trim(text)]), Scan(rest, [], "", false))
  {
    var input := "\r\n" + rest;
    assert input[1..] == "\n" + rest && input[1..][1..] == rest;
    assert (text + "\r")[..|text|] == text;
  }

  lemma Comma(more: string, row: Cells, text: string)
    ensures Scan("," + more, row, text, false) == Scan(more, row + [text], "", false)
  {
    assert ("," + more)[1..] == more;
  }

  lemma TrimLastOfMore(values: Cells, row: Cells)
    ensures |values| == 1 ==> TrimLast(values) == [Trim(values[0])]
    ensures |values| > 1 ==> row + [values[0]] + TrimLast(values[1..]) == row + TrimLast(values)
  {
    hide Trim;
  }

  lemma {:induction false} LineRoundTrip(values: Cells, rest: string, row: Cells)
    requires values != []
    ensures Scan(CsvLine(values) + "\r\n" + rest, row, "", false)
              == Prepend(IfKept(row + TrimLast(values)), Scan(rest, [], "", false))
    decreases |values|
  {
    hide Scan, TrimLast, Trim, IfKept, Cell;
    TrimLastOfMore(values, row);
    if |values| == 1 {
      assert CsvLine(values) + "\r\n" + rest == Cell(values[0]) + ("\r\n" + rest);
      CellRoundTrip(values[0], "\r\n" + rest, row);
      LineEnds(values[0], rest, row);
    } else {
      var more := CsvLine(values[1..]) + "\r\n" + rest;
      assert CsvLine(values) + "\r\n" + rest == Cell(values[0]) + ("," + more);
      CellRoundTrip(values[0], "," + more, row);
      Comma(more, row, values[0]);
      LineRoundTrip(values[1..], rest, row + [values[0]]);
    }
  }

  lemma AnyLineRoundTrip(values: Cells, rest: string)
    ensures Scan(CsvLine(values) + "\r\n" + rest, [], "", false)
              == Prepend(IfKept(TrimLast(values)), Scan(rest, [], "", false))
  {
    if values == [] {
      assert CsvLine(values) + "\r\n" + rest == "\r\n" + rest;
      LineEnds("", rest, []);
      assert [] + [Trim("")] == [""];
    } else {
      LineRoundTrip(values, rest, []);
      assert [] + TrimLast(values) == TrimLast(values);
    }
  }

  /** Every table survives printing and reading, up to blanks around last cells and rows without content. */
  lemma {:induction false} ReportRoundTrip(table: seq<Cells>)
    ensures Scan(Report(table), [], "", false) == Ok(ReadBack(table))
    decreases |table|
  {
    if table == [] {
      assert Ended([], "") == [""];
    } else {
      AnyLineRoundTrip(table[0], Report(table[1..]));
      ReportRoundTrip(table[1..]);
    }
  }

  lemma {:induction false} TrimStartOfReturn(s: string)
    ensures TrimStart(s + "\r") == if TrimStart(s) == "" then "" else TrimStart(s) + "\r"
    decreases |s|
  {
    if s == "" {
      assert (s + "\r")[1..] == "";
    } else if IsSpace(s[0]) {
      assert (s + "\r")[1..] == s[1..] + "\r";
      TrimStartOfReturn(s[1..]);
    }
  }

  lemma ChoppedTrim(s: string)
    ensures Trim(ChopReturn(s)) == Trim(s)
  {
    if s != "" && s[|s| - 1] == '\r' {
      var t := s[..|s| - 1];
      assert s == t + "\r";
      TrimStartOfReturn(t);
      if TrimStart(t) != "" { assert (TrimStart(t) + "\r")[..|TrimStart(t)|] == TrimStart(t); }
    }
  }

  lemma InputEnds(row: Cells, text: string)
    ensures Scan("", row, text, false) == Ok(IfKept(row + [Trim(text)]))
  {
    ChoppedTrim(text);
  }

  lemma {:induction false} LastLine(values: Cells, row: Cells)
    requires values != []
    ensures Scan(CsvLine(values), row, "", false) == Ok(IfKept(row + TrimLast(values)))
    decreases |values|
  {
    hide TrimLast, Trim, IfKept, Cell, Scan;
    TrimLastOfMore(values, row);
    if |values| == 1 {
      assert CsvLine(values) == Cell(values[0]) + "";
      CellRoundTrip(values[0], "", row);
      InputEnds(row, values[0]);
    } else {
      var more := CsvLine(values[1..]);
      assert CsvLine(values) == Cell(values[0]) + ("," + more);
      CellRoundTrip(values[0], "," + more, row);
      Comma(more, row, values[0]);
      LastLine(values[1..], row + [values[0]]);
    }
  }

  lemma {:induction false} JoinedRoundTrip(table: seq<Cells>)
    ensures Scan(Joined(table), [], "", false) == Ok(ReadBack(table))
    decreases |table|
  {
    if table == [] {
      assert Ended([], "") == [""];
    } else if |table| == 1 {
      if table[0] == [] {
        assert Ended([], "") == [""];
      } else {
        LastLine(table[0], []);
        assert [] + TrimLast(table[0]) == TrimLast(table[0]);
      }
      assert ReadBack(table[1..]) == [];
      assert IfKept(TrimLast(table[0])) + [] == IfKept(TrimLast(table[0]));
    } else {
      AnyLineRoundTrip(table[0], Joined(table[1..]));
      JoinedRoundTrip(table[1..]);
    }
  }

  predicate Intact(row: Cells) {
    row != [] && Clean(row[|row| - 1]) && Kept(row)
  }

  lemma {:induction false} ReadBackIsShort(table: seq<Cells>)
    ensures |ReadBack(table)| <= |table|
  {
    if table != [] { ReadBackIsShort(table[1..]); }
  }

  lemma FirstRowSurvives(back: Cells, row: Cells, kept: bool, more: seq<Cells>, rest: seq<Cells>)
    requires |more| <= |rest|
    ensures (if kept then [back] else []) + more == [row] + rest <==> kept && back == row && more == rest
  {
    var left, right := (if kept then [back] else []) + more, [row] + rest;
    if left == right {
      assert |left| == |right|;
      assert left[0] == right[0] && left[1..] == right[1..];
      assert left[1..] == more && right[1..] == rest;
    }
  }

  lemma FirstIsIntact(row: Cells)
    ensures Intact(row) <==> Kept(TrimLast(row)) && TrimLast(row) == row
  {
    if row != [] {
      var last := row[|row| - 1];
      TrimIsClean(last);
      assert row == row[..|row| - 1] + [last];
      assert TrimLast(row)[|row| - 1] == Trim(last);
    }
  }

  lemma {:induction false} ReadBackIsIdentity(table: seq<Cells>)
    ensures ReadBack(table) == table <==> forall i :: 0 <= i < |table| ==> Intact(table[i])
    decreases |table|
  {
    hide Trim, TrimLast, Intact, Kept;
    if table != [] {
      var first, rest := table[0], table[1..];
      ReadBackIsIdentity(rest);
      ReadBackIsShort(rest);
      FirstIsIntact(first);
      FirstRowSurvives(TrimLast(first), first, Kept(TrimLast(first)), ReadBack(rest), rest);
      assert table == [first] + rest;
    }
  }

  /** The table itself comes back exactly when every row has content and no blanks around its last cell. */
  lemma ExactRoundTrip(table: seq<Cells>)
    ensures Scan(Report(table), [], "", false) == Ok(table) <==> forall i :: 0 <= i < |table| ==> Intact(table[i])
  {
    hide Scan, Intact, ReadBack;
    ReportRoundTrip(table);
    ReadBackIsIdentity(table);
  }

  /** A blank after the last cell is lost, and so is a row of empty cells. */
  lemma BlanksAreLost(blank: seq<Cells>, hollow: seq<Cells>)
    requires blank == [["a "]] && hollow == [["", ""]]
    ensures Scan(Report(blank), [], "", false) == Ok([["a"]])
    ensures Scan(Report(hollow), [], "", false) == Ok([])
  {
    hide Scan;
    ReportRoundTrip(blank);
    ReportRoundTrip(hollow);
    assert "a "[..1] == "a";
    assert Trim("a ") == "a" && Trim("") == "";
    assert TrimLast(blank[0]) == ["a"] && TrimLast(hollow[0]) == ["", ""];
    assert ["a"][0] != "" && Kept(["a"]) && !Kept(["", ""]);
    assert ReadBack(blank[1..]) == [] && ReadBack(hollow[1..]) == [];
    assert ReadBack(blank) == [["a"]] && ReadBack(hollow) == [];
  }

  // ---------------------------------------------------------------------------------------------
  // Records

  function LowerAscii(c: char): char {
    if 'A' <= c <= 'Z' then (c as int + 32) as char else c
  }

  function Lowered(s: string): string {
    if s == "" then "" else [LowerAscii(s[0])] + Lowered(s[1..])
  }

  predicate Separator(c: char) {
    c == ' ' || c == '-'
  }

  /** Each run of blanks and hyphens becomes one underscore. */
  function Underscored(s: string, inRun: bool): string
    decreases |s|
  {
    if s == "" then ""
    else if Separator(s[0]) then (if inRun then "" else "_") + Underscored(s[1..], true)
    else [s[0]] + Underscored(s[1..], false)
  }

  function Header(value: string): string {
    Underscored(Lowered(Trim(value)), false)
  }

  /** Words separated by blanks and hyphens. */
  function Spread(words: Cells, gaps: Cells): string
    requires |gaps| + 1 == |words|
  {
    if gaps == [] then words[0] else words[0] + gaps[0] + Spread(words[1..], gaps[1..])
  }

  predicate Word(s: string) {
    s != "" && forall i :: 0 <= i < |s| ==> !Separator(s[i])
  }

  predicate Gap(s: string) {
    s != "" && forall i :: 0 <= i < |s| ==> Separator(s[i])
  }

  lemma {:induction false} LoweredEach(s: string)
    ensures |Lowered(s)| == |s|
    ensures forall i :: 0 <= i < |s| ==>
              if 'A' <= s[i] <= 'Z' then Lowered(s)[i] as int - 'a' as int == s[i] as int - 'A' as int
              else Lowered(s)[i] == s[i]
  {
    if s != "" { LoweredEach(s[1..]); }
  }

  lemma {:induction false} LoweredTogether(a: string, b: string)
    ensures Lowered(a + b) == Lowered(a) + Lowered(b)
  {
    if a == "" {
      assert a + b == b;
    } else {
      hide LowerAscii;
      LoweredTogether(a[1..], b);
      assert (a + b)[1..] == a[1..] + b && (a + b)[0] == a[0];
      assert Lowered(a + b) == [LowerAscii(a[0])] + (Lowered(a[1..]) + Lowered(b));
    }
  }

  lemma {:induction false} UnderscoredWord(word: string, rest: string, inRun: bool)
    requires Word(word)
    ensures Underscored(word + rest, inRun) == word + Underscored(rest, false)
    decreases |word|
  {
    assert (word + rest)[1..] == word[1..] + rest && [word[0]] + word[1..] == word;
    if |word| > 1 { UnderscoredWord(word[1..], rest, false); } else { assert word[1..] + rest == rest; }
  }

  lemma {:induction false} UnderscoredGap(gap: string, rest: string, inRun: bool)
    requires Gap(gap)
    ensures Underscored(gap + rest, inRun) == (if inRun then "" else "_") + Underscored(rest, true)
    decreases |gap|
  {
    assert (gap + rest)[1..] == gap[1..] + rest;
    if |gap| > 1 { UnderscoredGap(gap[1..], rest, true); } else { assert gap[1..] + rest == rest; }
  }

  function LoweredAll(words: Cells): Cells {
    if words == [] then [] else [Lowered(words[0])] + LoweredAll(words[1..])
  }

  lemma LoweredWord(word: string)
    ensures Word(word) ==> Word(Lowered(word))
  {
    LoweredEach(word);
    if Word(word) {
      forall i | 0 <= i < |word| ensures !Separator(Lowered(word)[i]) { assert !Separator(word[i]); }
    }
  }

  lemma LoweredGap(gap: string)
    ensures Gap(gap) ==> Lowered(gap) == gap
  {
    LoweredEach(gap);
    if Gap(gap) {
      forall i | 0 <= i < |gap| ensures Lowered(gap)[i] == gap[i] { assert Separator(gap[i]); }
    }
  }

  lemma NothingUnderscored()
    ensures Underscored("", false) == ""
  {
  }

  lemma {:induction false} UnderscoredSpread(words: Cells, gaps: Cells, inRun: bool)
    requires |gaps| + 1 == |words| && (forall w :: w in words ==> Word(w)) && forall g :: g in gaps ==> Gap(g)
    ensures Underscored(Lowered(Spread(words, gaps)), inRun) == Join(LoweredAll(words), "_")
    decreases |words|
  {
    hide Underscored, Lowered;
    LoweredWord(words[0]);
    if gaps == [] {
      assert LoweredAll(words) == [Lowered(words[0])] && Lowered(words[0]) + "" == Lowered(words[0]);
      UnderscoredWord(Lowered(words[0]), "", inRun);
      assert Underscored("", false) == "" by { NothingUnderscored(); }
    } else {
      var rest := Spread(words[1..], gaps[1..]);
      LoweredGap(gaps[0]);
      LoweredTogether(words[0] + gaps[0], rest);
      LoweredTogether(words[0], gaps[0]);
      assert Lowered(words[0]) + gaps[0] + Lowered(rest) == Lowered(words[0]) + (gaps[0] + Lowered(rest));
      UnderscoredWord(Lowered(words[0]), gaps[0] + Lowered(rest), inRun);
      UnderscoredGap(gaps[0], Lowered(rest), false);
      UnderscoredSpread(words[1..], gaps[1..], true);
      assert LoweredAll(words)[1..] == LoweredAll(words[1..]) && |LoweredAll(words[1..])| > 0;
    }
  }

  /** A header is its words in lower case, joined with underscores, however many blanks and hyphens separated them. */
  lemma HeaderOfWords(value: string, words: Cells, gaps: Cells)
    requires |gaps| + 1 == |words| && (forall w :: w in words ==> Word(w)) && forall g :: g in gaps ==> Gap(g)
    requires Trim(value) == Spread(words, gaps)
    ensures Header(value) == Join(LoweredAll(words), "_")
  {
    UnderscoredSpread(words, gaps, false);
  }

  function Headers(row: Cells): Cells {
    if row == [] then [] else [Header(row[0])] + Headers(row[1..])
  }

  /** `Object.fromEntries`: a later header of the same name wins; a missing cell is empty. */
  function Record(headers: Cells, values: Cells): map<string, string>
    decreases |headers|
  {
    if headers == [] then map[]
    else
      var k := |headers| - 1;
      Record(headers[..k], values)[headers[k] := if k < |values| then Trim(values[k]) else ""]
  }

  /** A header that does not occur again further right names its own column. */
  lemma {:induction false} RecordLooksUp(headers: Cells, values: Cells, k: nat)
    requires k < |headers| && forall j :: k < j < |headers| ==> headers[j] != headers[k]
    ensures headers[k] in Record(headers, values)
    ensures Record(headers, values)[headers[k]] == if k < |values| then Trim(values[k]) else ""
    decreases |headers|
  {
    hide Trim;
    var n := |headers| - 1;
    if k < n { RecordLooksUp(headers[..n], values, k); }
  }

  function Records(headers: Cells, rows: seq<Cells>): seq<map<string, string>> {
    if rows == [] then [] else [Record(headers, rows[0])] + Records(headers, rows[1..])
  }

  /** `parseCsv`. */
  function Parsed(input: string): Result<seq<map<string, string>>> {
    var rows := Scan(input, [], "", false);
    if rows.Err? then Err(rows.error)
    else if |rows.value| < 2 then Err(TooFewRows)
    else if "name" !in Headers(rows.value[0]) then Err(NoNameColumn)
    else Ok(Records(Headers(rows.value[0]), rows.value[1..]))
  }

  method ParseCsv(input: string) returns (r: Result<seq<map<string, string>>>)
    ensures r == Parsed(input)
  {
    var rows := ScanRows(input);
    if rows.Err? { return Err(rows.error); }
    if |rows.value| < 2 { return Err(TooFewRows); }
    var headers := Headers(rows.value[0]);
    if "name" !in headers { return Err(NoNameColumn); }
    r := Ok(Records(headers, rows.value[1..]));
  }

  lemma {:induction false} RecordIgnoresTrimming(headers: Cells, row: Cells)
    ensures Record(headers, TrimLast(row)) == Record(headers, row)
    decreases |headers|
  {
    hide Trim;
    if headers != [] {
      RecordIgnoresTrimming(headers[..|headers| - 1], row);
      if row != [] { TrimIsClean(row[|row| - 1]); }
    }
  }

  function ContentRows(rows: seq<Cells>): seq<Cells> {
    if rows == [] then [] else (if Kept(TrimLast(rows[0])) then [rows[0]] else []) + ContentRows(rows[1..])
  }

  lemma {:induction false} RecordsReadBack(headers: Cells, rows: seq<Cells>)
    ensures Records(headers, ReadBack(rows)) == Records(headers, ContentRows(rows))
    ensures |ReadBack(rows)| == |ContentRows(rows)|
    decreases |rows|
  {
    if rows != [] {
      RecordsReadBack(headers, rows[1..]);
      RecordIgnoresTrimming(headers, rows[0]);
      if Kept(TrimLast(rows[0])) {
        assert ReadBack(rows)[1..] == ReadBack(rows[1..]) && ContentRows(rows)[1..] == ContentRows(rows[1..]);
      } else {
        assert ReadBack(rows) == ReadBack(rows[1..]) && ContentRows(rows) == ContentRows(rows[1..]);
      }
    }
  }

  lemma {:induction false} HeadersOfLast(row: Cells)
    ensures Headers(TrimLast(row)) == Headers(row)
    decreases |row|
  {
    if |row| == 1 {
      TrimIsClean(row[0]);
      assert TrimLast(row)[1..] == row[1..];
    } else if |row| > 1 {
      HeadersOfLast(row[1..]);
      assert TrimLast(row)[1..] == TrimLast(row[1..]) && TrimLast(row)[0] == row[0];
    }
  }

  /** A printed table parses into one record for each row with content, every value trimmed under its header. */
  lemma RecordsRoundTrip(header: Cells, rows: seq<Cells>)
    requires Kept(TrimLast(header))
    ensures Parsed(Report([header] + rows)) ==
            if ContentRows(rows) == [] then Err(TooFewRows)
            else if "name" !in Headers(header) then Err(NoNameColumn)
            else Ok(Records(Headers(header), ContentRows(rows)))
  {
    var table := [header] + rows;
    ReportRoundTrip(table);
    assert table[1..] == rows;
    assert ReadBack(table) == [TrimLast(header)] + ReadBack(rows);
    assert ReadBack(table)[1..] == ReadBack(rows);
    HeadersOfLast(header);
    RecordsReadBack(Headers(header), rows);
  }
}
