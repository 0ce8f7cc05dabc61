/** Editing `.env` for an incident, and undoing the edit (tools/chaos.py). */
module EnvFile {
  import opened Wrappers

  const ABSENT := "\0absent"

  predicate IsKey(s: string) {
    s != "" && '=' !in s
  }

  datatype Setting = Setting(key: string, value: string)

  /** The keys of a dict: plain and distinct. */
  predicate Settings(values: seq<Setting>) {
    && (forall i :: 0 <= i < |values| ==> IsKey(values[i].key))
    && (forall i, j :: 0 <= i < j < |values| ==> values[i].key != values[j].key)
  }

  // ------------------------------------------------------------------ one line

  /** line.split("=", 1)[0] */
  function Head(line: string): (key: string) {
    if line == "" || line[0] == '=' then "" else [line[0]] + Head(line[1..])
  }

  function Line(key: string, value: string): (line: string) {
    key + "=" + value
  }

  /** line.startswith(f"{key}=") */
  predicate Sets(line: string, key: string) {
    key + "=" <= line
  }

  /** line.split("=", 1)[1] */
  function Value(line: string, key: string): (value: string)
    requires Sets(line, key)
  {
    line[|key| + 1..]
  }

  lemma HeadOfLine(line: string, key: string)
    requires '=' !in key
    ensures Sets(line, key) <==> Head(line) == key && '=' in line
    ensures Sets(line, key) ==> line == Line(key, Value(line, key))
  {
    SetsByHead(line, key);
  }

  lemma {:induction false} SetsByHead(line: string, key: string)
    requires '=' !in key
    ensures Sets(line, key) <==> Head(line) == key && '=' in line
    decreases |key|
  {
    if key == "" {
      assert "" + "=" == "=";
    } else if line != "" && line[0] == key[0] {
      SetsByHead(line[1..], key[1..]);
      assert line == [line[0]] + line[1..];
      assert key == [key[0]] + key[1..];
      assert key + "=" == [key[0]] + (key[1..] + "=");
      if Sets(line, key) { assert (key + "=")[1..] <= line[1..]; }
      if Head(line) == key && '=' in line { assert Head(line[1..]) == key[1..]; }
    }
  }

  lemma LineHasHead(key: string, value: string)
    requires IsKey(key)
    ensures Head(Line(key, value)) == key && Sets(Line(key, value), key) && Value(Line(key, value), key) == value
  {
    HeadOfLine(Line(key, value), key);
  }

  // ------------------------------------------------------------------ the edit

  /** The first line that sets the key, or the end. */
  function Find(lines: seq<string>, key: string): (i: nat)
    ensures i <= |lines| && (i < |lines| ==> Sets(lines[i], key))
    ensures forall j :: 0 <= j < i ==> !Sets(lines[j], key)
  {
    if lines == [] then 0 else if Sets(lines[0], key) then 0 else 1 + Find(lines[1..], key)
  }

  function SetOne(lines: seq<string>, x: Setting): (r: seq<string>) {
    var i := Find(lines, x.key);
    if i < |lines| then lines[i := Line(x.key, x.value)] else lines + [Line(x.key, x.value)]
  }

  function SetAll(lines: seq<string>, values: seq<Setting>): (r: seq<string>) {
    if values == [] then lines else SetOne(SetAll(lines, values[..|values| - 1]), values[|values| - 1])
  }

  function Previous(lines: seq<string>, key: string): (value: string) {
    var i := Find(lines, key);
    if i < |lines| then Value(lines[i], key) else ABSENT
  }

  function Backup(lines: seq<string>, values: seq<Setting>): (previous: map<string, string>) {
    if values == [] then map[]
    else
      var last := values[|values| - 1];
      Backup(lines, values[..|values| - 1])[last.key := Previous(lines, last.key)]
  }

  // ------------------------------------------------------------------ the undo

  /** What becomes of one line. */
  function RestoredLine(line: string, previous: map<string, string>): (r: seq<string>) {
    var key := Head(line);
    if key !in previous then [line]
    else if previous[key] != ABSENT then [Line(key, previous[key])]
    else []
  }

  function Restored(lines: seq<string>, previous: map<string, string>): (r: seq<string>) {
    if lines == [] then []
    else Restored(lines[..|lines| - 1], previous) + RestoredLine(lines[|lines| - 1], previous)
  }

  /** Joining no lines writes a newline, which reads back as one empty line. */
  function Saved(lines: seq<string>): (r: seq<string>) {
    if lines == [] then [""] else lines
  }

  class DotEnv {
    var lines: seq<string>

    constructor (read: seq<string>)
      ensures lines == read
    {
      lines := read;
    }

    method SetEnvValues(values: seq<Setting>) returns (previous: map<string, string>)
      requires Settings(values)
      modifies this
      ensures lines == Saved(SetAll(old(lines), values))
      ensures previous == Backup(old(lines), values)
    {
      var text := lines;
      ghost var read := lines;
      previous := map[];
      for k := 0 to |values|
        invariant lines == read
        invariant text == SetAll(read, values[..k]) && previous == Backup(read, values[..k])
      {
        var x := values[k];
        OneMoreSetting(read, values, k);
        var i := 0;
        while i < |text| && !Sets(text[i], x.key)
          invariant i <= Find(text, x.key)
        {
          i := i + 1;
        }
        assert i == Find(text, x.key);
        if i < |text| {
          previous := previous[x.key := Value(text[i], x.key)];
          text := text[i := Line(x.key, x.value)];
        } else {
          previous := previous[x.key := ABSENT];
          text := text + [Line(x.key, x.value)];
        }
      }
      assert values[..|values|] == values;
      lines := Saved(text);
    }

    method RestoreEnvValues(previous: map<string, string>)
      modifies this
      ensures lines == Saved(Restored(old(lines), previous))
    {
      var kept: seq<string> := [];
      for i := 0 to |lines|
        invariant kept == Restored(lines[..i], previous)
      {
        assert lines[..i + 1][..i] == lines[..i];
        var line := lines[i];
        var key := Head(line);
        if key !in previous {
          kept := kept + [line];
        } else if previous[key] != ABSENT {
          kept := kept + [Line(key, previous[key])];
        }
      }
      assert lines[..|lines|] == lines;
      lines := Saved(kept);
    }
  }

  // ------------------------------------------------------------------ what the undo undoes

  lemma {:induction false} FindIs(lines: seq<string>, key: string, i: nat)
    requires i <= |lines| && (i < |lines| ==> Sets(lines[i], key))
    requires forall j :: 0 <= j < i ==> !Sets(lines[j], key)
    ensures Find(lines, key) == i
  {
  }

  /** Setting one key neither moves nor changes another. */
  lemma OtherUnmoved(lines: seq<string>, x: Setting, key: string)
    requires IsKey(x.key) && IsKey(key) && key != x.key
    ensures Previous(SetOne(lines, x), key) == Previous(lines, key)
  {
    var after := SetOne(lines, x);
    var at, i := Find(lines, x.key), Find(lines, key);
    LineHasHead(x.key, x.value);
    HeadOfLine(Line(x.key, x.value), key);
    if at < |lines| { HeadOfLine(lines[at], x.key); HeadOfLine(lines[at], key); }
    if i < |lines| { FindIs(after, key, i); } else { FindIs(after, key, |after|); }
  }

  lemma {:induction false} OthersUnmoved(lines: seq<string>, values: seq<Setting>, key: string)
    requires Settings(values) && IsKey(key) && forall i :: 0 <= i < |values| ==> values[i].key != key
    ensures Previous(SetAll(lines, values), key) == Previous(lines, key)
  {
    if values != [] {
      var n := |values| - 1;
      OthersUnmoved(lines, values[..n], key);
      OtherUnmoved(SetAll(lines, values[..n]), values[n], key);
    }
  }

  /** What the loop has done after one more key; its backup is read from the text as edited so far. */
  lemma OneMoreSetting(lines: seq<string>, values: seq<Setting>, k: nat)
    requires Settings(values) && k < |values|
    ensures var text, x := SetAll(lines, values[..k]), values[k];
      && SetAll(lines, values[..k + 1]) == SetOne(text, x)
      && Backup(lines, values[..k + 1]) == Backup(lines, values[..k])[x.key := Previous(text, x.key)]
  {
    assert values[..k + 1][..k] == values[..k];
    OthersUnmoved(lines, values[..k], values[k].key);
  }

  predicate Changes(values: seq<Setting>, key: string) {
    exists i :: 0 <= i < |values| && values[i].key == key
  }

  lemma ChangesOneMore(values: seq<Setting>, key: string)
    requires values != []
    ensures Changes(values, key) <==> Changes(values[..|values| - 1], key) || values[|values| - 1].key == key
  {
    var n := |values| - 1;
    if Changes(values, key) {
      var i :| 0 <= i < |values| && values[i].key == key;
      if i < n { assert values[..n][i].key == key; }
    }
    if Changes(values[..n], key) {
      var i :| 0 <= i < n && values[..n][i].key == key;
      assert values[i].key == key;
    }
  }

  lemma {:induction false} BackupIs(lines: seq<string>, values: seq<Setting>, key: string)
    ensures key in Backup(lines, values) <==> Changes(values, key)
    ensures key in Backup(lines, values) ==> Backup(lines, values)[key] == Previous(lines, key)
  {
    if values != [] {
      BackupIs(lines, values[..|values| - 1], key);
      ChangesOneMore(values, key);
    }
  }

  /** Lines with the same head are restored to the same thing. */
  lemma {:induction false} RestoredUpdate(lines: seq<string>, i: nat, line: string, previous: map<string, string>)
    requires i < |lines| && Head(line) == Head(lines[i]) && Head(line) in previous
    ensures Restored(lines[i := line], previous) == Restored(lines, previous)
  {
    var n := |lines| - 1;
    if i < n {
      RestoredUpdate(lines[..n], i, line, previous);
      assert lines[i := line][..n] == lines[..n][i := line];
    } else {
      assert lines[i := line][..n] == lines[..n];
    }
  }

  lemma {:induction false} SetOneForgotten(lines: seq<string>, x: Setting, previous: map<string, string>)
    requires IsKey(x.key) && x.key in previous
    requires Find(lines, x.key) == |lines| ==> previous[x.key] == ABSENT
    ensures Restored(SetOne(lines, x), previous) == Restored(lines, previous)
  {
    LineHasHead(x.key, x.value);
    var i := Find(lines, x.key);
    if i < |lines| {
      HeadOfLine(lines[i], x.key);
      RestoredUpdate(lines, i, Line(x.key, x.value), previous);
    } else {
      assert (lines + [Line(x.key, x.value)])[..|lines|] == lines;
    }
  }

  /** The undo sees through the edit: it does to the edited file what it would do to the original. */
  lemma {:induction false} EditForgotten(lines: seq<string>, values: seq<Setting>, previous: map<string, string>)
    requires Settings(values)
    requires forall i :: 0 <= i < |values| ==>
      values[i].key in previous && previous[values[i].key] == Previous(lines, values[i].key)
    ensures Restored(SetAll(lines, values), previous) == Restored(lines, previous)
  {
    if values != [] {
      var n := |values| - 1;
      var mid, x := SetAll(lines, values[..n]), values[n];
      EditForgotten(lines, values[..n], previous);
      OthersUnmoved(lines, values[..n], x.key);
      SetOneForgotten(mid, x, previous);
    }
  }

  lemma {:induction false} RestoredIsShorter(lines: seq<string>, previous: map<string, string>)
    ensures |Restored(lines, previous)| <= |lines|
  {
    if lines != [] { RestoredIsShorter(lines[..|lines| - 1], previous); }
  }

  /** Two halves of the same lengths are equal apart. */
  lemma SplitsAlike(a: seq<string>, b: seq<string>, c: seq<string>, last: string)
    requires |a| <= |c| && |b| <= 1
    ensures a + b == c + [last] <==> a == c && b == [last]
  {
    if a + b == c + [last] {
      assert a == (a + b)[..|c|] == c;
      assert b == (a + b)[|c|..] == [last];
    }
  }

  predicate AllSame(lines: seq<string>, previous: map<string, string>) {
    forall i :: 0 <= i < |lines| ==> RestoredLine(lines[i], previous) == [lines[i]]
  }

  lemma {:induction false} RestoredIsSame(lines: seq<string>, previous: map<string, string>)
    ensures Restored(lines, previous) == lines <==> AllSame(lines, previous)
  {
    if lines != [] {
      var init, last := lines[..|lines| - 1], lines[|lines| - 1];
      RestoredIsSame(init, previous);
      RestoredIsShorter(init, previous);
      SplitsAlike(Restored(init, previous), RestoredLine(last, previous), init, last);
      assert lines == init + [last];
      AllSameSplits(lines, previous);
    }
  }

  lemma AllSameSplits(lines: seq<string>, previous: map<string, string>)
    requires lines != []
    ensures var init, last := lines[..|lines| - 1], lines[|lines| - 1];
      AllSame(lines, previous) <==> AllSame(init, previous) && RestoredLine(last, previous) == [last]
  {
    var init := lines[..|lines| - 1];
    assert forall i :: 0 <= i < |init| ==> init[i] == lines[i];
  }

  /** If the line is about a changed key, it is that key's first assignment over again, and not of the marker. */
  predicate Steady(lines: seq<string>, values: seq<Setting>, line: string) {
    Changes(values, Head(line)) ==>
      var first := Find(lines, Head(line));
      first < |lines| && line == lines[first] && Value(lines[first], Head(line)) != ABSENT
  }

  predicate Undoable(lines: seq<string>, values: seq<Setting>) {
    lines != [] && forall i :: 0 <= i < |lines| ==> Steady(lines, values, lines[i])
  }

  lemma SteadyIsRestored(lines: seq<string>, values: seq<Setting>, line: string)
    requires Settings(values)
    ensures RestoredLine(line, Backup(lines, values)) == [line] <==> Steady(lines, values, line)
  {
    var key := Head(line);
    var first := Find(lines, key);
    BackupIs(lines, values, key);
    if Changes(values, key) && first < |lines| { HeadOfLine(lines[first], key); }
  }

  lemma EditUndone(lines: seq<string>, values: seq<Setting>)
    requires Settings(values) && lines != []
    ensures Restored(SetAll(lines, values), Backup(lines, values)) == Restored(lines, Backup(lines, values))
  {
    forall i | 0 <= i < |values|
      ensures values[i].key in Backup(lines, values)
      ensures Backup(lines, values)[values[i].key] == Previous(lines, values[i].key)
    {
      BackupIs(lines, values, values[i].key);
    }
    EditForgotten(lines, values, Backup(lines, values));
  }

  /** Set, write, read back, restore, write and read again: the original lines, in order. */
  predicate GivenBack(lines: seq<string>, values: seq<Setting>) {
    Saved(Restored(Saved(SetAll(lines, values)), Backup(lines, values))) == lines
  }

  lemma {:induction false} UndoneExactly(lines: seq<string>, values: seq<Setting>)
    requires Settings(values)
    ensures GivenBack(lines, values) <==> Undoable(lines, values)
  {
    if lines != [] {
      SetAllNotEmpty(lines, values);
      EditUndone(lines, values);
      RestoredIsSame(lines, Backup(lines, values));
      if lines == [""] { EmptyLineStays(lines, values); }
      forall i | 0 <= i < |lines|
        ensures RestoredLine(lines[i], Backup(lines, values)) == [lines[i]] <==> Steady(lines, values, lines[i])
      {
        SteadyIsRestored(lines, values, lines[i]);
      }
    }
  }

  lemma {:induction false} SetAllNotEmpty(lines: seq<string>, values: seq<Setting>)
    requires lines != []
    ensures SetAll(lines, values) != []
  {
    if values != [] { SetAllNotEmpty(lines, values[..|values| - 1]); }
  }

  lemma EmptyLineStays(lines: seq<string>, values: seq<Setting>)
    requires Settings(values) && lines == [""]
    ensures Restored(lines, Backup(lines, values)) == [""]
  {
    BackupIs(lines, values, "");
    assert Head("") == "";
    assert lines[..0] == [] && [] + [""] == [""];
  }

  /** A file the code does not give back: the key stands alone on its line, and the undo drops it. */
  lemma BareKeyIsLost()
    ensures !GivenBack(["DEBUG"], [Setting("DEBUG", "1")])
  {
    var lines, values := ["DEBUG"], [Setting("DEBUG", "1")];
    HeadIs("DEBUG");
    assert values[0].key == "DEBUG";
    FindIs(lines, "DEBUG", 1);
    assert !Steady(lines, values, lines[0]);
    UndoneExactly(lines, values);
  }

  /** Another: the key is set twice, and the undo writes the first value over the second. */
  lemma SecondValueIsLost()
    ensures !GivenBack(["A=1", "A=2"], [Setting("A", "3")])
  {
    var lines, values := ["A=1", "A=2"], [Setting("A", "3")];
    assert Line("A", "1") == lines[0] && Line("A", "2") == lines[1];
    LineHasHead("A", "1");
    LineHasHead("A", "2");
    FindIs(lines, "A", 0);
    assert values[0].key == "A" && lines[0][2] != lines[1][2];
    assert !Steady(lines, values, lines[1]);
    UndoneExactly(lines, values);
  }

  lemma {:induction false} HeadIs(line: string)
    requires '=' !in line
    ensures Head(line) == line
  {
    if line != "" {
      HeadIs(line[1..]);
      assert line == [line[0]] + line[1..];
    }
  }
}
