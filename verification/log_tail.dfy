/** Reading the JSON logs whole, or only the last bytes of each file (common/common/logsearch.py). */
module LogTail {
  import opened Wrappers

  /** Bytes of a file; '\n' ends a line. */
  type Bytes = string

  type Dict = map<string, string>

  /** What parsing one line yields; blank and malformed lines differ only in being counted. */
  datatype Parsed = Blank | Malformed | Record(fields: Dict)

  datatype File = File(stem: string, content: Bytes)

  datatype Read = Read(records: seq<Dict>, malformed: nat)

  // ------------------------------------------------------------------ lines

  /** Where readline stops: after the next newline, or at the end. */
  function LineEnd(content: Bytes, pos: nat): (next: nat)
    requires pos <= |content|
    ensures pos <= next <= |content| && (pos < |content| ==> pos < next)
    decreases |content| - pos
  {
    if pos == |content| then pos
    else if content[pos] == '\n' then pos + 1
    else LineEnd(content, pos + 1)
  }

  function LinesFrom(content: Bytes, pos: nat): (lines: seq<Bytes>)
    requires pos <= |content|
    decreases |content| - pos
  {
    if pos == |content| then []
    else [content[pos..LineEnd(content, pos)]] + LinesFrom(content, LineEnd(content, pos))
  }

  /** Where a bounded read starts: after the line the seek landed in. */
  function StartOf(content: Bytes, tail: Option<nat>): (pos: nat)
    ensures pos <= |content|
  {
    if tail.Some? && |content| > tail.value then LineEnd(content, |content| - tail.value) else 0
  }

  predicate LineStart(content: Bytes, p: nat) {
    p <= |content| && (p == 0 || p == |content| || content[p - 1] == '\n')
  }

  lemma {:induction false} LineEndIsFirst(content: Bytes, pos: nat)
    requires pos <= |content|
    ensures LineStart(content, LineEnd(content, pos))
    ensures forall i :: pos <= i < LineEnd(content, pos) - 1 ==> content[i] != '\n'
    decreases |content| - pos
  {
    if pos < |content| && content[pos] != '\n' { LineEndIsFirst(content, pos + 1); }
  }

  // ------------------------------------------------------------------ records

  function WithService(fields: Dict, stem: string): (r: Dict) {
    if "service" in fields then fields else fields["service" := stem]
  }

  function Collect(lines: seq<Bytes>, stem: string, parse: Bytes -> Parsed): (r: Read) {
    if lines == [] then Read([], 0)
    else
      var rest := Collect(lines[1..], stem, parse);
      match parse(lines[0])
      case Blank => rest
      case Malformed => Read(rest.records, rest.malformed + 1)
      case Record(fields) => Read([WithService(fields, stem)] + rest.records, rest.malformed)
  }

  function ReadFile(file: File, tail: Option<nat>, parse: Bytes -> Parsed): (r: Read) {
    Collect(LinesFrom(file.content, StartOf(file.content, tail)), file.stem, parse)
  }

  function Join(a: Read, b: Read): (r: Read) {
    Read(a.records + b.records, a.malformed + b.malformed)
  }

  function ReadFiles(files: seq<File>, tail: Option<nat>, parse: Bytes -> Parsed): (r: Read) {
    if files == [] then Read([], 0)
    else Join(ReadFiles(files[..|files| - 1], tail, parse), ReadFile(files[|files| - 1], tail, parse))
  }

  lemma {:induction false} CollectConcat(a: seq<Bytes>, b: seq<Bytes>, stem: string, parse: Bytes -> Parsed)
    ensures Collect(a + b, stem, parse) == Join(Collect(a, stem, parse), Collect(b, stem, parse))
  {
    if a == [] {
      assert a + b == b;
      assert [] + Collect(b, stem, parse).records == Collect(b, stem, parse).records;
    } else {
      assert (a + b)[1..] == a[1..] + b;
      CollectConcat(a[1..], b, stem, parse);
    }
  }

  /** One line added to what has been read so far. */
  function Added(r: Read, p: Parsed, stem: string): (s: Read) {
    match p
    case Blank => r
    case Malformed => Read(r.records, r.malformed + 1)
    case Record(fields) => Read(r.records + [WithService(fields, stem)], r.malformed)
  }

  lemma OneMoreLine(r: Read, content: Bytes, pos: nat, stem: string, parse: Bytes -> Parsed)
    requires pos < |content|
    ensures var next := LineEnd(content, pos);
      Join(r, Collect(LinesFrom(content, pos), stem, parse))
      == Join(Added(r, parse(content[pos..next]), stem), Collect(LinesFrom(content, next), stem, parse))
  {
    var next := LineEnd(content, pos);
    var line, rest := content[pos..next], LinesFrom(content, next);
    assert LinesFrom(content, pos)[0] == line && LinesFrom(content, pos)[1..] == rest;
    var tail := Collect(rest, stem, parse);
    if parse(line).Record? {
      var added := [WithService(parse(line).fields, stem)];
      assert r.records + (added + tail.records) == (r.records + added) + tail.records;
    }
  }

  lemma OneMoreFile(files: seq<File>, f: nat, tail: Option<nat>, parse: Bytes -> Parsed)
    requires f < |files|
    ensures ReadFiles(files[..f + 1], tail, parse)
         == Join(ReadFiles(files[..f], tail, parse), ReadFile(files[f], tail, parse))
  {
    assert files[..f + 1][..f] == files[..f];
  }

  /** `files` is the directory in path order. */
  method ReadRecords(files: seq<File>, tail: Option<nat>, parse: Bytes -> Parsed) returns (r: Read)
    ensures r == ReadFiles(files, tail, parse)
  {
    var records: seq<Dict>, malformed := [], 0;
    for f := 0 to |files|
      invariant Read(records, malformed) == ReadFiles(files[..f], tail, parse)
    {
      var file := files[f];
      OneMoreFile(files, f, tail, parse);
      ghost var goal := ReadFiles(files[..f + 1], tail, parse);
      var pos := 0;
      if tail.Some? && |file.content| > tail.value {
        pos := |file.content| - tail.value;
        pos := LineEnd(file.content, pos);
      }
      while pos < |file.content|
        invariant pos <= |file.content|
        invariant Join(Read(records, malformed), Collect(LinesFrom(file.content, pos), file.stem, parse)) == goal
        decreases |file.content| - pos
      {
        OneMoreLine(Read(records, malformed), file.content, pos, file.stem, parse);
        var next := LineEnd(file.content, pos);
        var line := file.content[pos..next];
        pos := next;
        match parse(line) {
          case Blank => continue;
          case Malformed => malformed := malformed + 1;
          case Record(fields) => records := records + [WithService(fields, file.stem)];
        }
      }
      assert records + [] == records;
    }
    assert files[..|files|] == files;
    return Read(records, malformed);
  }

  // ------------------------------------------------------------------ the bounded read against the full one

  predicate IsSuffix<T(==)>(s: seq<T>, t: seq<T>) {
    |s| <= |t| && t[|t| - |s|..] == s
  }

  /** From one line start to a later one, whole lines are passed over. */
  lemma {:induction false} SplitAtLine(content: Bytes, q: nat, p: nat) returns (passed: seq<Bytes>)
    requires q <= p && LineStart(content, p)
    ensures LinesFrom(content, q) == passed + LinesFrom(content, p)
    ensures q < p ==> passed != []
    decreases |content| - q
  {
    if q == p {
      passed := [];
    } else {
      LineEndIsFirst(content, q);
      var next := LineEnd(content, q);
      assert next <= p;
      var rest := SplitAtLine(content, next, p);
      passed := [content[q..next]] + rest;
      assert passed + LinesFrom(content, p) == [content[q..next]] + (rest + LinesFrom(content, p));
    }
  }

  lemma StartIsLine(content: Bytes, tail: Option<nat>)
    ensures LineStart(content, StartOf(content, tail))
  {
    if tail.Some? && |content| > tail.value { LineEndIsFirst(content, |content| - tail.value); }
  }

  /** The bounded read of a file: the last of the full read's records, and no more malformed lines. */
  lemma TailIsSuffix(file: File, tail: Option<nat>, parse: Bytes -> Parsed)
    ensures IsSuffix(ReadFile(file, tail, parse).records, ReadFile(file, None, parse).records)
    ensures ReadFile(file, tail, parse).malformed <= ReadFile(file, None, parse).malformed
  {
    var start := StartOf(file.content, tail);
    StartIsLine(file.content, tail);
    var passed := SplitAtLine(file.content, 0, start);
    CollectConcat(passed, LinesFrom(file.content, start), file.stem, parse);
  }

  /** It reaches back to the first newline at or past the seek: every line starting after that is in it. */
  lemma TailReachesBack(file: File, n: nat, p: nat, parse: Bytes -> Parsed)
    requires |file.content| > n && LineStart(file.content, p)
    requires exists i :: |file.content| - n <= i < p && file.content[i] == '\n'
    ensures StartOf(file.content, Some(n)) <= p
    ensures IsSuffix(Collect(LinesFrom(file.content, p), file.stem, parse).records,
                     ReadFile(file, Some(n), parse).records)
  {
    var start := StartOf(file.content, Some(n));
    LineEndIsFirst(file.content, |file.content| - n);
    var passed := SplitAtLine(file.content, start, p);
    CollectConcat(passed, LinesFrom(file.content, p), file.stem, parse);
  }

  /** No line is passed over exactly when the file fits; and a line that starts right at the seek is passed over. */
  lemma {:induction false} WholeOnlyIfItFits(content: Bytes, n: nat)
    ensures LinesFrom(content, StartOf(content, Some(n))) == LinesFrom(content, 0) <==> |content| <= n
    ensures |content| > n > 0 && LineStart(content, |content| - n) ==>
      LinesFrom(content, |content| - n)
      == [content[|content| - n..StartOf(content, Some(n))]] + LinesFrom(content, StartOf(content, Some(n)))
  {
    if |content| > n {
      StartIsLine(content, Some(n));
      var passed := SplitAtLine(content, 0, StartOf(content, Some(n)));
    }
  }

  /** In order, with some left out. */
  predicate Thinned<T(==)>(s: seq<T>, t: seq<T>)
    decreases |t|
  {
    s == []
    || (t != []
        && (Thinned(s, t[..|t| - 1])
            || (s[|s| - 1] == t[|t| - 1] && Thinned(s[..|s| - 1], t[..|t| - 1]))))
  }

  lemma {:induction false} ThinnedConcat<T>(a: seq<T>, b: seq<T>, c: seq<T>, d: seq<T>)
    requires Thinned(a, c) && Thinned(b, d)
    ensures Thinned(a + b, c + d)
    decreases |d|
  {
    if d == [] {
      assert a + b == a && c + d == c;
    } else {
      assert (c + d)[..|c + d| - 1] == c + d[..|d| - 1];
      if b == [] || Thinned(b, d[..|d| - 1]) {
        ThinnedConcat(a, b, c, d[..|d| - 1]);
      } else {
        assert (a + b)[..|a + b| - 1] == a + b[..|b| - 1];
        ThinnedConcat(a, b[..|b| - 1], c, d[..|d| - 1]);
      }
    }
  }

  lemma {:induction false} SuffixIsThinned<T>(s: seq<T>, t: seq<T>)
    requires IsSuffix(s, t)
    ensures Thinned(s, t)
    decreases |t|
  {
    if s != [] {
      var s', t' := s[..|s| - 1], t[..|t| - 1];
      assert s[|s| - 1] == t[|t| - |s|..][|s| - 1];
      assert t'[|t'| - |s'|..] == t[|t| - |s|..][..|s'|];
      SuffixIsThinned(s', t');
    }
  }

  /** Over a directory: the bounded read keeps the full read's order, and only leaves records out. */
  lemma {:induction false} TailOfEveryFile(files: seq<File>, tail: Option<nat>, parse: Bytes -> Parsed)
    ensures Thinned(ReadFiles(files, tail, parse).records, ReadFiles(files, None, parse).records)
    ensures ReadFiles(files, tail, parse).malformed <= ReadFiles(files, None, parse).malformed
  {
    if files != [] {
      var n := |files| - 1;
      TailOfEveryFile(files[..n], tail, parse);
      TailIsSuffix(files[n], tail, parse);
      var t, u := ReadFile(files[n], tail, parse).records, ReadFile(files[n], None, parse).records;
      SuffixIsThinned(t, u);
      ThinnedConcat(ReadFiles(files[..n], tail, parse).records, t, ReadFiles(files[..n], None, parse).records, u);
    }
  }
}
