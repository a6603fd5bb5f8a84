/**
 * The `variables` input parser: a newline-separated block of `KEY=VALUE`
 * lines becomes a string map. Modelled stage by stage after the
 * `split` / `map` / `filter` / `reduce` chain, then related to a
 * line-by-line reference reading of the same rules.
 */
module EnvVarParser {
  import opened Wrappers
  import opened Text

  /** The message of the reducer's guard for a line without a key. */
  const NoKeyFound := "No key found"

  function DropTrailingCR(t: string): string {
    if |t| > 0 && t[|t| - 1] == '\r' then t[..|t| - 1] else t
  }

  /**
   * `split(/\r?\n/)`: cut at every `\n`; a `\r` directly before that `\n` belongs
   * to the separator, any other `\r` stays in its line.
   */
  function SplitLines(s: string): (lines: seq<string>)
    ensures |lines| >= 1
    ensures forall l :: l in lines ==> '\n' !in l
    decreases |s|
  {
    var i := IndexOf(s, '\n');
    if i == |s| then [s] else [DropTrailingCR(s[..i])] + SplitLines(s[i + 1..])
  }

  /** `.map((line) => line.split("="))` */
  function SplitEachLine(lines: seq<string>): (rows: seq<seq<string>>)
    ensures |rows| == |lines|
    ensures forall row :: row in rows ==> |row| >= 1
  {
    if lines == [] then [] else [SplitOn(lines[0], '=')] + SplitEachLine(lines[1..])
  }

  /** `.filter((parts) => parts[0])`: keep the rows whose first segment is not empty. */
  function KeepKeyed(rows: seq<seq<string>>): (kept: seq<seq<string>>)
    requires forall row :: row in rows ==> |row| >= 1
    ensures |kept| <= |rows|
    ensures forall row :: row in kept ==> |row| >= 1 && row[0] != ""
  {
    if rows == [] then []
    else if rows[0][0] != "" then [rows[0]] + KeepKeyed(rows[1..])
    else KeepKeyed(rows[1..])
  }

  /**
   * `.reduce(...)`: for each row, the key is its first segment trimmed and the value
   * the other segments rejoined with `=` and trimmed; a later row overwrites an
   * earlier one with the same key. A row with an empty first segment throws,
   * which the filter before it makes impossible.
   */
  function Reduce(rows: seq<seq<string>>, acc: map<string, string>): (r: Result<map<string, string>>)
    requires forall row :: row in rows ==> |row| >= 1
    ensures (forall row :: row in rows ==> row[0] != "") ==> r.Ok?
    ensures (exists row :: row in rows && row[0] == "") ==> r.Err?
    ensures r.Err? ==> r.error == NoKeyFound
  {
    if rows == [] then Ok(acc)
    else if rows[0][0] == "" then Err(NoKeyFound)
    else Reduce(rows[1..], acc[Trim(rows[0][0]) := Trim(Join(rows[0][1..], "="))])
  }

  /** `parseEnvironmentVariablesToJSON`: it never throws. */
  function ParseEnvironmentVariablesToJson(input: string): (r: Result<map<string, string>>)
    ensures r.Ok?
  {
    Reduce(KeepKeyed(SplitEachLine(SplitLines(input))), map[])
  }

  // ---------------------------------------------------------------------------
  // Reference reading, one line at a time

  /**
   * What one line contributes: nothing when the text before its first `=` is
   * empty; otherwise that text trimmed as key and everything after the first
   * `=` (or nothing, when there is no `=`) trimmed as value.
   */
  function LineEntry(line: string): (e: Option<(string, string)>)
    // only a blank line, or one starting with `=`, contributes nothing
    ensures e.None? <==> line == "" || line[0] == '='
    ensures e.Some? ==> Trimmed(e.value.0) && Trimmed(e.value.1)
  {
    var i := IndexOf(line, '=');
    if i == 0 then None
    else Some((Trim(line[..i]), Trim(if i == |line| then "" else line[i + 1..])))
  }

  /** The entries of `lines`, one per line. */
  function Entries(lines: seq<string>): (es: seq<Option<(string, string)>>)
    ensures |es| == |lines|
    ensures forall i :: 0 <= i < |lines| ==> es[i] == LineEntry(lines[i])
  {
    if lines == [] then []
    else
      var rest := Entries(lines[1..]);
      assert forall i :: 0 < i < |lines| ==> lines[i] == lines[1..][i - 1];
      [LineEntry(lines[0])] + rest
  }

  predicate DefinesKey(e: Option<(string, string)>, k: string) {
    e.Some? && e.value.0 == k
  }

  /** Applies the entries to `acc` in order, a later entry overwriting an earlier one. */
  function Collect(es: seq<Option<(string, string)>>, acc: map<string, string>): (r: map<string, string>)
    // keys are only ever added
    ensures acc.Keys <= r.Keys
  {
    if es == [] then acc
    else match es[0]
      case None => Collect(es[1..], acc)
      case Some(e) => Collect(es[1..], acc[e.0 := e.1])
  }

  /** The `split`/`filter`/`reduce` chain reads each line exactly as `LineEntry` does. */
  lemma {:induction false} ReduceIsCollect(lines: seq<string>, acc: map<string, string>)
    ensures Reduce(KeepKeyed(SplitEachLine(lines)), acc) == Ok(Collect(Entries(lines), acc))
  {
    if lines != [] {
      var line := lines[0];
      var parts := SplitOn(line, '=');
      SplitAtFirst(line, '=');
      assert SplitEachLine(lines)[1..] == SplitEachLine(lines[1..]);
      assert Entries(lines)[1..] == Entries(lines[1..]);
      var i := IndexOf(line, '=');
      if i == 0 {
        assert parts[0] == "";
        ReduceIsCollect(lines[1..], acc);
      } else {
        assert parts[0] != "";
        var e := LineEntry(line).value;
        assert e == (Trim(parts[0]), Trim(Join(parts[1..], "=")));
        ReduceIsCollect(lines[1..], acc[e.0 := e.1]);
      }
    }
  }

  /** The parse result is the reference reading of the lines, applied to the empty map. */
  lemma ParseIsCollect(input: string)
    ensures ParseEnvironmentVariablesToJson(input).value == Collect(Entries(SplitLines(input)), map[])
  {
    ReduceIsCollect(SplitLines(input), map[]);
  }

  lemma {:induction false} CollectKeys(es: seq<Option<(string, string)>>, acc: map<string, string>, k: string)
    ensures k in Collect(es, acc) <==> k in acc || exists i :: 0 <= i < |es| && DefinesKey(es[i], k)
  {
    if es != [] {
      var rest := es[1..];
      assert forall i :: 0 < i < |es| ==> es[i] == rest[i - 1];
      match es[0]
      case None =>
        CollectKeys(rest, acc, k);
        if k in Collect(es, acc) && k !in acc {
          var j :| 0 <= j < |rest| && DefinesKey(rest[j], k);
          assert DefinesKey(es[j + 1], k);
        }
      case Some(e) =>
        CollectKeys(rest, acc[e.0 := e.1], k);
        if k in Collect(es, acc) && k !in acc && k != e.0 {
          var j :| 0 <= j < |rest| && DefinesKey(rest[j], k);
          assert DefinesKey(es[j + 1], k);
        }
    }
  }

  lemma {:induction false} CollectLastWins(es: seq<Option<(string, string)>>, acc: map<string, string>, i: nat)
    requires i < |es| && es[i].Some?
    requires forall j :: i < j < |es| ==> !DefinesKey(es[j], es[i].value.0)
    ensures es[i].value.0 in Collect(es, acc) && Collect(es, acc)[es[i].value.0] == es[i].value.1
  {
    var e := es[i].value;
    if i == 0 {
      CollectUntouched(es[1..], acc[e.0 := e.1], e.0);
    } else {
      assert forall j :: i - 1 < j < |es| - 1 ==> es[1..][j] == es[j + 1];
      match es[0]
      case None => CollectLastWins(es[1..], acc, i - 1);
      case Some(f) => CollectLastWins(es[1..], acc[f.0 := f.1], i - 1);
    }
  }

  lemma {:induction false} CollectUntouched(es: seq<Option<(string, string)>>, acc: map<string, string>, k: string)
    requires k in acc
    requires forall j :: 0 <= j < |es| ==> !DefinesKey(es[j], k)
    ensures k in Collect(es, acc) && Collect(es, acc)[k] == acc[k]
  {
    if es != [] {
      assert forall j :: 0 <= j < |es| - 1 ==> es[1..][j] == es[j + 1];
      match es[0]
      case None => CollectUntouched(es[1..], acc, k);
      case Some(e) => CollectUntouched(es[1..], acc[e.0 := e.1], k);
    }
  }

  lemma {:induction false} CollectSize(es: seq<Option<(string, string)>>, acc: map<string, string>)
    ensures |Collect(es, acc)| <= |acc| + |es|
  {
    if es != [] {
      match es[0]
      case None => CollectSize(es[1..], acc);
      case Some(e) => CollectSize(es[1..], acc[e.0 := e.1]);
    }
  }

  // ---------------------------------------------------------------------------
  // Properties of the parser

  /** A key is in the result exactly when some line defines it. */
  lemma ParsedKeys(input: string, k: string)
    ensures k in ParseEnvironmentVariablesToJson(input).value
        <==> exists i :: 0 <= i < |SplitLines(input)| && DefinesKey(LineEntry(SplitLines(input)[i]), k)
  {
    ParseIsCollect(input);
    CollectKeys(Entries(SplitLines(input)), map[], k);
  }

  /** When several lines define the same key, the last of them gives its value. */
  lemma LastDefinitionWins(input: string, i: nat)
    requires i < |SplitLines(input)| && LineEntry(SplitLines(input)[i]).Some?
    requires forall j :: i < j < |SplitLines(input)| ==>
      !DefinesKey(LineEntry(SplitLines(input)[j]), LineEntry(SplitLines(input)[i]).value.0)
    ensures var e := LineEntry(SplitLines(input)[i]).value;
      e.0 in ParseEnvironmentVariablesToJson(input).value
      && ParseEnvironmentVariablesToJson(input).value[e.0] == e.1
  {
    ParseIsCollect(input);
    CollectLastWins(Entries(SplitLines(input)), map[], i);
  }

  /** The result has at most as many keys as the input has lines. */
  lemma ParsedSizeBound(input: string)
    ensures |ParseEnvironmentVariablesToJson(input).value| <= |SplitLines(input)|
  {
    ParseIsCollect(input);
    CollectSize(Entries(SplitLines(input)), map[]);
  }

  /** Empty input gives the empty map. */
  lemma ParseEmpty()
    ensures ParseEnvironmentVariablesToJson("").value == map[]
  {
    ParseIsCollect("");
    assert SplitLines("") == [""];
    assert LineEntry("") == None;
  }

  /** Lines are cut only at `\n` or `\r\n`: a text without `\n` is a single line, lone `\r` included. */
  lemma SingleLine(s: string)
    requires '\n' !in s
    ensures SplitLines(s) == [s]
  {
  }

  /** A line without `\n`, a `\n` and a rest: the line, less a trailing `\r`, then the rest's lines. */
  lemma SplitLinesCons(head: string, rest: string)
    requires '\n' !in head
    ensures SplitLines(head + "\n" + rest) == [DropTrailingCR(head)] + SplitLines(rest)
  {
    var s := head + "\n" + rest;
    assert s == head + ("\n" + rest);
    IndexOfAppend(head, "\n" + rest, '\n');
    assert s[..|head|] == head;
    assert s[|head| + 1..] == rest;
  }

  /** The same with `\r\n` after the line: the line comes back whole. */
  lemma SplitLinesCrlfCons(head: string, rest: string)
    requires '\n' !in head
    ensures SplitLines(head + "\r\n" + rest) == [head] + SplitLines(rest)
  {
    assert head + "\r\n" + rest == (head + "\r") + "\n" + rest;
    SplitLinesCons(head + "\r", rest);
    assert DropTrailingCR(head + "\r") == head;
  }

  /** Lines joined with `\r\n` split back into the same lines, whatever `\r` they contain. */
  lemma {:induction false} SplitLinesCrlf(lines: seq<string>)
    requires |lines| >= 1
    requires forall i :: 0 <= i < |lines| ==> '\n' !in lines[i]
    ensures SplitLines(Join(lines, "\r\n")) == lines
  {
    if |lines| > 1 {
      var rest := lines[1..];
      assert forall i :: 0 <= i < |rest| ==> rest[i] == lines[i + 1];
      SplitLinesCrlf(rest);
      SplitLinesCrlfCons(lines[0], Join(rest, "\r\n"));
      assert [lines[0]] + rest == lines;
    } else {
      SingleLine(lines[0]);
    }
  }

  /** Lines joined with `\n` split back into the same lines when none but the last ends in `\r`. */
  lemma {:induction false} SplitLinesLf(lines: seq<string>)
    requires |lines| >= 1
    requires forall i :: 0 <= i < |lines| ==> '\n' !in lines[i]
    requires forall i :: 0 <= i < |lines| - 1 ==> DropTrailingCR(lines[i]) == lines[i]
    ensures SplitLines(Join(lines, "\n")) == lines
  {
    if |lines| > 1 {
      var rest := lines[1..];
      assert forall i :: 0 <= i < |rest| ==> rest[i] == lines[i + 1];
      SplitLinesLf(rest);
      SplitLinesCons(lines[0], Join(rest, "\n"));
      assert [lines[0]] + rest == lines;
    } else {
      SingleLine(lines[0]);
    }
  }

  /** A whitespace-only key passes the filter and becomes the key `""`. */
  lemma WhitespaceKeyBecomesEmpty(key: string, value: string)
    requires key != [] && AllWhitespace(key) && '=' !in key
    requires '\n' !in key && '\n' !in value
    ensures ParseEnvironmentVariablesToJson(key + "=" + value).value == map["" := Trim(value)]
  {
    var line := key + "=" + value;
    ParseIsCollect(line);
    SingleAssignmentLine(key, value);
    WhitespaceKeyLine(key, value);
    assert Entries([line]) == [Some(("", Trim(value)))];
    CollectOne("", Trim(value));
  }

  lemma SingleAssignmentLine(key: string, value: string)
    requires '\n' !in key && '\n' !in value
    ensures SplitLines(key + "=" + value) == [key + "=" + value]
  {
    assert key + "=" + value == key + ("=" + value);
    SingleLine(key + "=" + value);
  }

  lemma CollectOne(k: string, v: string)
    ensures Collect([Some((k, v))], map[]) == map[k := v]
  {
    assert [Some((k, v))][1..] == [];
  }

  lemma WhitespaceKeyLine(key: string, value: string)
    requires key != [] && AllWhitespace(key) && '=' !in key
    ensures LineEntry(key + "=" + value) == Some(("", Trim(value)))
  {
    KeyValueLine(key, value);
  }

  /**
   * The key is the text before the first `=` and the value everything after it,
   * further `=` included, each trimmed.
   */
  lemma KeyValueLine(key: string, value: string)
    requires key != "" && '=' !in key
    ensures LineEntry(key + "=" + value) == Some((Trim(key), Trim(value)))
  {
    var line := key + "=" + value;
    FirstSeparatorAfterKey(key, value);
    assert IndexOf(line, '=') == |key| < |line|;
    assert line[..|key|] == key;
    assert line[|key| + 1..] == value;
  }

  lemma FirstSeparatorAfterKey(key: string, value: string)
    requires '=' !in key
    ensures IndexOf(key + "=" + value, '=') == |key|
  {
    assert key + "=" + value == key + ("=" + value);
    IndexOfAppend(key, "=" + value, '=');
  }

  /** A line without `=` is a key of its own, with the empty value. */
  lemma LineWithoutSeparator(line: string)
    requires line != "" && '=' !in line
    ensures LineEntry(line) == Some((Trim(line), ""))
  {
    assert IndexOf(line, '=') == |line|;
    assert line[..|line|] == line;
    assert Trim("") == "";
  }
}
