/**
  The incident table: the row the chaos tool adds, and what the support service reads back
  (tools/chaos.py, services/support/app/service.py).
*/
module IncidentIndex {
  import opened Wrappers

  // ------------------------------------------------------------------ strings

  predicate IsSpace(c: char) {
    c == ' ' || c == '\t' || c == '\n' || c == '\r' || c == 11 as char || c == 12 as char
  }

  predicate IsDigit(c: char) {
    '0' <= c <= '9'
  }

  predicate IsBar(c: char) {
    c == '|'
  }

  function StripLeft(s: string, drop: char -> bool): (r: string) {
    if s != "" && drop(s[0]) then StripLeft(s[1..], drop) else s
  }

  function StripRight(s: string, drop: char -> bool): (r: string) {
    if s != "" && drop(s[|s| - 1]) then StripRight(s[..|s| - 1], drop) else s
  }

  /** str.strip() */
  function Strip(s: string): (r: string) {
    StripRight(StripLeft(s, IsSpace), IsSpace)
  }

  /** str.strip("|") */
  function StripBars(s: string): (r: string) {
    StripRight(StripLeft(s, IsBar), IsBar)
  }

  /** str.split("|") */
  function Split(s: string): (cells: seq<string>)
    ensures cells != []
  {
    if s == "" then [""]
    else
      var rest := Split(s[1..]);
      if s[0] == '|' then [""] + rest else [[s[0]] + rest[0]] + rest[1..]
  }

  function Decimal(n: nat): (s: string) {
    var digit := [(48 + n % 10) as char];
    if n < 10 then digit else Decimal(n / 10) + digit
  }

  function Formatted(n: int): (s: string) {
    if n < 0 then "-" + Decimal(-n) else Decimal(n)
  }

  function Number(s: string): (n: nat)
    requires forall c :: c in s ==> IsDigit(c)
  {
    if s == "" then 0
    else
      assert IsDigit(s[|s| - 1]);
      Number(s[..|s| - 1]) * 10 + (s[|s| - 1] as int - 48)
  }

  /** _as_int of a cell. */
  function AsInt(value: string): (n: Option<nat>) {
    var s := Strip(value);
    if s != "" && (forall c :: c in s ==> IsDigit(c)) then Some(Number(s)) else None
  }

  // ------------------------------------------------------------------ the row

  datatype Incident = Incident(id: string, title: string, sev: string, category: string,
                               tta: int, ttm: int, hints: int, score: int)

  function CellsOf(x: Incident): (cells: seq<string>) {
    [x.id, x.title, x.sev, x.category, Formatted(x.tta), Formatted(x.ttm), Formatted(x.hints),
     Formatted(x.score) + "/10"]
  }

  /** " a | b | c " */
  function Inner(cells: seq<string>): (s: string)
    requires cells != []
  {
    " " + cells[0] + " " + if |cells| == 1 then "" else "|" + Inner(cells[1..])
  }

  function RowText(x: Incident): (line: string) {
    "|" + Inner(CellsOf(x)) + "|"
  }

  predicate IsRow(line: string) {
    "| INC-" <= line
  }

  // ------------------------------------------------------------------ the writer

  datatype Fault = NoHeader

  predicate IsRule(line: string) {
    "|---" <= line
  }

  function HeaderAt(lines: seq<string>): (i: nat)
    ensures i <= |lines|
  {
    if lines == [] || IsRule(lines[0]) then 0 else 1 + HeaderAt(lines[1..])
  }

  /** The first line at or after `i` that is no row. */
  function RowsEnd(lines: seq<string>, i: nat): (end: nat)
    requires i <= |lines|
    ensures i <= end <= |lines|
    decreases |lines| - i
  {
    if i < |lines| && IsRow(lines[i]) then RowsEnd(lines, i + 1) else i
  }

  function SlotOf(lines: seq<string>): (end: nat)
    requires HeaderAt(lines) < |lines|
    ensures end <= |lines|
  {
    RowsEnd(lines, HeaderAt(lines) + 1)
  }

  lemma {:induction false} HeaderIsFirst(lines: seq<string>)
    ensures HeaderAt(lines) < |lines| ==> IsRule(lines[HeaderAt(lines)])
    ensures forall j :: 0 <= j < HeaderAt(lines) ==> !IsRule(lines[j])
  {
    if lines != [] && !IsRule(lines[0]) { HeaderIsFirst(lines[1..]); }
  }

  lemma {:induction false} RowsEndIsFirst(lines: seq<string>, i: nat)
    requires i <= |lines|
    ensures forall j :: i <= j < RowsEnd(lines, i) ==> IsRow(lines[j])
    ensures RowsEnd(lines, i) < |lines| ==> !IsRow(lines[RowsEnd(lines, i)])
    decreases |lines| - i
  {
    if i < |lines| && IsRow(lines[i]) { RowsEndIsFirst(lines, i + 1); }
  }

  /** The new row goes right below the rows that follow the first header rule. */
  lemma {:induction false} SlotIsTableEnd(lines: seq<string>)
    requires HeaderAt(lines) < |lines|
    ensures var h, end := HeaderAt(lines), SlotOf(lines);
      && IsRule(lines[h]) && (forall j :: 0 <= j < h ==> !IsRule(lines[j]))
      && h < end && (forall j :: h < j < end ==> IsRow(lines[j]))
      && (end < |lines| ==> !IsRow(lines[end]))
  {
    HeaderIsFirst(lines);
    RowsEndIsFirst(lines, HeaderAt(lines) + 1);
  }

  function Slotted(lines: seq<string>, end: nat, row: string): (r: seq<string>)
    requires end <= |lines|
  {
    lines[..end] + [row] + lines[end..]
  }

  class IndexFile {
    var lines: seq<string>

    constructor (read: seq<string>)
      ensures lines == read
    {
      lines := read;
    }

    /** Err is the StopIteration of a file without a header rule; nothing is written then. */
    method AppendIndexRow(x: Incident) returns (done: Result<(), Fault>)
      modifies this
      ensures done.Ok? == (HeaderAt(old(lines)) < |old(lines)|)
      ensures lines == if done.Ok? then Slotted(old(lines), SlotOf(old(lines)), RowText(x)) else old(lines)
    {
      var header := HeaderAt(lines);
      if header == |lines| { return Err(NoHeader); }
      var end := header + 1;
      while end < |lines| && IsRow(lines[end])
        invariant header + 1 <= end <= |lines|
        invariant RowsEnd(lines, header + 1) == RowsEnd(lines, end)
      {
        end := end + 1;
      }
      var row := RowText(x);
      lines := lines[..end] + [row] + lines[end..];
      return Ok(());
    }
  }

  // ------------------------------------------------------------------ the readers

  datatype Scored = Scored(sev: string, tta: string, ttm: string, hints: string, score: string)

  function StripAll(cells: seq<string>): (r: seq<string>)
    ensures |r| == |cells| && forall i :: 0 <= i < |r| ==> r[i] == Strip(cells[i])
  {
    if cells == [] then [] else [Strip(cells[0])] + StripAll(cells[1..])
  }

  /** The id and the cells of one line, if it is a row of at least eight. */
  function Parsed(line: string): (r: Option<(string, Scored)>) {
    var cells := StripAll(Split(StripBars(line)));
    if !IsRow(line) || |cells| < 8 then None
    else Some((cells[0], Scored(cells[2], cells[4], cells[5], cells[6], cells[7])))
  }

  function Noted(rows: map<string, Scored>, row: Option<(string, Scored)>): (r: map<string, Scored>) {
    match row case None => rows case Some(x) => rows[x.0 := x.1]
  }

  function Rows(lines: seq<string>): (rows: map<string, Scored>) {
    if lines == [] then map[]
    else
      Noted(Rows(lines[..|lines| - 1]), Parsed(lines[|lines| - 1]))
  }

  method IndexRows(lines: seq<string>) returns (rows: map<string, Scored>)
    ensures rows == Rows(lines)
  {
    rows := map[];
    for i := 0 to |lines|
      invariant rows == Rows(lines[..i])
    {
      assert lines[..i + 1][..i] == lines[..i];
      if !IsRow(lines[i]) { continue; }
      var cells := StripAll(Split(StripBars(lines[i])));
      if |cells| < 8 { continue; }
      rows := rows[cells[0] := Scored(cells[2], cells[4], cells[5], cells[6], cells[7])];
    }
    assert lines[..|lines|] == lines;
  }

  /** line.split("|")[1].strip(), for a line that starts with a bar. */
  function IdCell(line: string): (id: string)
    requires IsRow(line)
  {
    BarSplits("", line[1..]);
    assert line == "" + "|" + line[1..];
    Strip(Split(line)[1])
  }

  ghost function Closed(lines: seq<string>): (ids: set<string>) {
    set i | 0 <= i < |lines| && IsRow(lines[i]) :: IdCell(lines[i])
  }

  // ------------------------------------------------------------------ splitting a row

  lemma {:induction false} BarSplits(a: string, b: string)
    requires '|' !in a
    ensures Split(a + "|" + b) == [a] + Split(b)
  {
    var s := a + "|" + b;
    if a == "" {
      assert s[1..] == b;
    } else {
      BarSplits(a[1..], b);
      assert s[1..] == a[1..] + "|" + b;
      assert a == [a[0]] + a[1..];
    }
  }

  lemma {:induction false} NoBar(a: string)
    requires '|' !in a
    ensures Split(a) == [a]
  {
    if a != "" {
      NoBar(a[1..]);
      assert a == [a[0]] + a[1..];
    }
  }

  function Padded(cells: seq<string>): (r: seq<string>)
    ensures |r| == |cells| && forall i :: 0 <= i < |r| ==> r[i] == " " + cells[i] + " "
  {
    if cells == [] then [] else [" " + cells[0] + " "] + Padded(cells[1..])
  }

  lemma {:induction false} InnerSplits(cells: seq<string>)
    requires cells != [] && forall i :: 0 <= i < |cells| ==> '|' !in cells[i]
    ensures Split(Inner(cells)) == Padded(cells)
  {
    var first := " " + cells[0] + " ";
    if |cells| == 1 {
      assert Inner(cells) == first + "" == first;
      NoBar(first);
    } else {
      InnerSplits(cells[1..]);
      assert Inner(cells) == first + "|" + Inner(cells[1..]);
      BarSplits(first, Inner(cells[1..]));
    }
  }

  lemma {:induction false} InnerEnds(cells: seq<string>)
    requires cells != []
    ensures |Inner(cells)| >= 2 && Inner(cells)[0] == ' ' && Inner(cells)[|Inner(cells)| - 1] == ' '
  {
    if |cells| > 1 { InnerEnds(cells[1..]); }
  }

  lemma BarsOff(cells: seq<string>)
    requires cells != []
    ensures StripBars("|" + Inner(cells) + "|") == Inner(cells)
  {
    InnerEnds(cells);
    var s := Inner(cells);
    var t := "|" + s + "|";
    assert t[0] == '|' && t[1..] == s + "|";
    assert StripLeft(t, IsBar) == StripLeft(t[1..], IsBar) == s + "|";
    assert (s + "|")[..|s|] == s;
    assert StripRight(s + "|", IsBar) == StripRight(s, IsBar) == s;
  }

  lemma {:induction false} PadsOff(s: string)
    ensures Strip(" " + s + " ") == Strip(s)
  {
    var t := StripLeft(s, IsSpace);
    assert (" " + s + " ")[1..] == s + " ";
    LeftThenSpace(s);
    if t == "" {
      assert StripLeft(" ", IsSpace) == StripLeft("", IsSpace) == "";
    } else {
      assert (t + " ")[..|t|] == t;
    }
  }

  lemma {:induction false} LeftThenSpace(s: string)
    ensures StripLeft(s + " ", IsSpace)
         == if StripLeft(s, IsSpace) == "" then "" else StripLeft(s, IsSpace) + " "
  {
    if s == "" {
      assert s + " " == " ";
      assert " "[1..] == "";
    } else {
      assert (s + " ")[1..] == s[1..] + " ";
      LeftThenSpace(s[1..]);
    }
  }

  // ------------------------------------------------------------------ numbers

  lemma {:induction false} DecimalReads(n: nat)
    ensures Decimal(n) != "" && forall c :: c in Decimal(n) ==> IsDigit(c)
    ensures Number(Decimal(n)) == n
  {
    var digit := [(48 + n % 10) as char];
    if n >= 10 {
      DecimalReads(n / 10);
      assert Decimal(n)[..|Decimal(n)| - 1] == Decimal(n / 10);
    } else {
      assert digit[..0] == "";
    }
  }

  lemma DigitsStay(s: string)
    requires s != "" && !IsSpace(s[0]) && !IsSpace(s[|s| - 1])
    ensures Strip(s) == s
  {
  }

  /** A number survives exactly when it is not negative. */
  lemma NumberReadsBack(n: int)
    ensures AsInt(Strip(Formatted(n))) == if n >= 0 then Some(n) else None
    ensures '|' !in Formatted(n) && Strip(Formatted(n)) == Formatted(n)
  {
    var s := Formatted(n);
    DecimalReads(if n < 0 then -n else n);
    assert s[0] in s && s[|s| - 1] in s;
    DigitsStay(s);
    if n < 0 { assert '-' in s && !IsDigit('-'); }
  }

  // ------------------------------------------------------------------ round trip

  /** No field holds a bar, and the id is a trimmed incident number. */
  predicate Writable(x: Incident) {
    && "INC-" <= x.id && Strip(x.id) == x.id && '|' !in x.id
    && '|' !in x.title && '|' !in x.sev && '|' !in x.category
  }

  lemma NumbersHaveNoBar(n: int)
    ensures '|' !in Formatted(n) && '|' !in Formatted(n) + "/10"
  {
    NumberReadsBack(n);
  }

  lemma CellsHaveNoBar(x: Incident)
    requires Writable(x)
    ensures forall i :: 0 <= i < 8 ==> '|' !in CellsOf(x)[i]
  {
    forall i | 0 <= i < 8 ensures '|' !in CellsOf(x)[i] {
      if i >= 4 { NumbersHaveNoBar([x.tta, x.ttm, x.hints, x.score][i - 4]); }
    }
  }

  lemma RowIsRow(x: Incident)
    requires Writable(x)
    ensures IsRow(RowText(x))
  {
    var rest := Inner(CellsOf(x)[1..]);
    assert RowText(x) == "| " + x.id + " " + "|" + rest + "|";
    assert x.id == "INC-" + x.id[4..];
    assert RowText(x)[..6] == "| INC-";
  }

  lemma IdComesFirst(x: Incident)
    requires Writable(x)
    ensures IsRow(RowText(x)) && IdCell(RowText(x)) == x.id
  {
    RowIsRow(x);
    var first, rest := " " + x.id + " ", Inner(CellsOf(x)[1..]) + "|";
    assert RowText(x) == "" + "|" + (first + "|" + rest);
    BarSplits("", first + "|" + rest);
    BarSplits(first, rest);
    PadsOff(x.id);
  }

  function Written(x: Incident): (row: Scored) {
    Scored(Strip(x.sev), Formatted(x.tta), Formatted(x.ttm), Formatted(x.hints), Formatted(x.score) + "/10")
  }

  lemma ScoreStays(score: int)
    ensures Strip(Formatted(score) + "/10") == Formatted(score) + "/10"
  {
    NumberReadsBack(score);
    var s := Formatted(score);
    DecimalReads(if score < 0 then -score else score);
    assert s[0] in s;
    DigitsStay(s + "/10");
  }

  /** One row, written and read back. */
  lemma RowReadsBack(x: Incident)
    requires Writable(x)
    ensures Parsed(RowText(x)) == Some((x.id, Written(x)))
  {
    var cells := CellsOf(x);
    CellsHaveNoBar(x);
    BarsOff(cells);
    InnerSplits(cells);
    RowIsRow(x);
    PadsOff(x.id);
    PadsOff(x.sev);
    PadsOff(cells[4]);
    PadsOff(cells[5]);
    PadsOff(cells[6]);
    PadsOff(cells[7]);
    NumberReadsBack(x.tta);
    NumberReadsBack(x.ttm);
    NumberReadsBack(x.hints);
    ScoreStays(x.score);
    assert StripAll(Padded(cells))[0] == x.id;
  }

  lemma NotedConcat(a: map<string, Scored>, b: map<string, Scored>, row: Option<(string, Scored)>)
    ensures a + Noted(b, row) == Noted(a + b, row)
  {
  }

  lemma {:induction false} RowsConcat(a: seq<string>, b: seq<string>)
    ensures Rows(a + b) == Rows(a) + Rows(b)
  {
    if b == [] {
      assert a + b == a;
    } else {
      var init, last := b[..|b| - 1], b[|b| - 1];
      RowsConcat(a, init);
      assert (a + b)[..|a + b| - 1] == a + init && (a + b)[|a + b| - 1] == last;
      NotedConcat(Rows(a), Rows(init), Parsed(last));
    }
  }

  lemma RowsInsert(a: seq<string>, b: seq<string>, line: string, id: string, row: Scored)
    requires Parsed(line) == Some((id, row))
    ensures Rows(a + [line] + b) == Rows(a)[id := row] + Rows(b)
  {
    var with := a + [line];
    RowsConcat(with, b);
    assert with[..|with| - 1] == a && with[|with| - 1] == line;
  }

  lemma Overlaid(a: map<string, Scored>, b: map<string, Scored>, id: string, row: Scored)
    ensures id !in b ==> a[id := row] + b == (a + b)[id := row]
    ensures id in b ==> a[id := row] + b == a + b
  {
  }

  lemma ClosedGrows(a: seq<string>, b: seq<string>, line: string)
    requires IsRow(line)
    ensures Closed(a + [line] + b) == Closed(a + b) + {IdCell(line)}
  {
    var old_, now := a + b, a + [line] + b;
    forall i | 0 <= i < |old_| && IsRow(old_[i]) ensures IdCell(old_[i]) in Closed(now) {
      var j := if i < |a| then i else i + 1;
      assert now[j] == old_[i];
    }
    forall j | 0 <= j < |now| && IsRow(now[j]) ensures IdCell(now[j]) in Closed(old_) + {IdCell(line)} {
      if j != |a| {
        var i := if j < |a| then j else j - 1;
        assert old_[i] == now[j];
      }
    }
    assert now[|a|] == line;
  }

  lemma {:induction false} SlottedReadsBack(lines: seq<string>, end: nat, line: string, id: string, row: Scored)
    requires end <= |lines| && Parsed(line) == Some((id, row))
    ensures Rows(Slotted(lines, end, line)) == if id in Rows(lines[end..]) then Rows(lines) else Rows(lines)[id := row]
  {
    var a, b := lines[..end], lines[end..];
    assert lines == a + b;
    RowsConcat(a, b);
    RowsInsert(a, b, line, id, row);
    Overlaid(Rows(a), Rows(b), id, row);
  }

  lemma SlottedCloses(lines: seq<string>, end: nat, line: string)
    requires end <= |lines| && IsRow(line)
    ensures Closed(Slotted(lines, end, line)) == Closed(lines) + {IdCell(line)}
  {
    var a, b := lines[..end], lines[end..];
    assert lines == a + b;
    ClosedGrows(a, b, line);
  }

  /**
    After an append the reader sees every row it saw before, plus this one - unless a row below
    the end of the table already carries the same id, which then wins. The set of closed
    incidents grows by exactly this id.
  */
  lemma {:induction false} AppendReadsBack(lines: seq<string>, x: Incident)
    requires Writable(x) && HeaderAt(lines) < |lines|
    ensures var end := SlotOf(lines);
      var after := Slotted(lines, end, RowText(x));
      && Rows(after) == (if x.id in Rows(lines[end..]) then Rows(lines) else Rows(lines)[x.id := Written(x)])
      && Closed(after) == Closed(lines) + {x.id}
  {
    var end, line := SlotOf(lines), RowText(x);
    RowReadsBack(x);
    IdComesFirst(x);
    SlottedReadsBack(lines, end, line, x.id, Written(x));
    SlottedCloses(lines, end, line);
  }

  /** The numbers the support service shows are the ones written, exactly when none is negative. */
  lemma NumbersReadBack(x: Incident)
    ensures AsInt(Written(x).tta) == (if x.tta >= 0 then Some(x.tta) else None)
    ensures AsInt(Written(x).ttm) == (if x.ttm >= 0 then Some(x.ttm) else None)
    ensures AsInt(Written(x).hints) == (if x.hints >= 0 then Some(x.hints) else None)
  {
    NumberReadsBack(x.tta);
    NumberReadsBack(x.ttm);
    NumberReadsBack(x.hints);
  }
}
