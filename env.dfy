/** The `.env.local` loader at the top of supabase/test-rls.ts: the file is split on "\n",
    each line that matches `^([^=]+)=(.*)$` gives a trimmed key and a trimmed value, and the
    value is written into `process.env` only where the key is unset or empty. */
module EnvLoader {
  import opened Common

  // ---------------------------------------------------------------------------
  // `envFile.split("\n")`

  /** The index of the first `c` in `s`, or `|s|` when there is none. */
  function FirstIndexOf(s: string, c: char): (k: nat)
    ensures k <= |s|
    ensures forall i :: 0 <= i < k ==> s[i] != c
    ensures k < |s| ==> s[k] == c
  {
    if s == [] || s[0] == c then 0 else 1 + FirstIndexOf(s[1..], c)
  }

  /** No line of the result holds a "\n", and there is always at least one line. */
  function SplitLines(s: string): (lines: seq<string>)
    ensures |lines| >= 1
    ensures forall i :: 0 <= i < |lines| ==> '\n' !in lines[i]
    decreases |s|
  {
    var k := FirstIndexOf(s, '\n');
    if k == |s| then [s] else [s[..k]] + SplitLines(s[k + 1..])
  }

  /** `lines.join("\n")`. */
  function JoinLines(lines: seq<string>): string
    requires |lines| >= 1
  {
    if |lines| == 1 then lines[0] else lines[0] + "\n" + JoinLines(lines[1..])
  }

  /** Splitting loses nothing: joining the lines back gives the file. */
  lemma {:induction false} JoinSplit(s: string)
    ensures JoinLines(SplitLines(s)) == s
    decreases |s|
  {
    var k := FirstIndexOf(s, '\n');
    if k < |s| {
      JoinSplit(s[k + 1..]);
      assert s == s[..k] + "\n" + s[k + 1..];
    }
  }

  /** The first "\n" of `l + "\n" + rest` is the one after `l` when `l` holds none. */
  lemma {:induction false} FirstIndexOfAfter(l: string, rest: string)
    requires '\n' !in l
    ensures FirstIndexOf(l + "\n" + rest, '\n') == |l|
  {
    if l != [] {
      assert (l + "\n" + rest)[1..] == l[1..] + "\n" + rest;
      FirstIndexOfAfter(l[1..], rest);
    }
  }

  /** And splitting the join of lines without "\n" gives the lines back. */
  lemma {:induction false} SplitJoin(lines: seq<string>)
    requires |lines| >= 1
    requires forall i :: 0 <= i < |lines| ==> '\n' !in lines[i]
    ensures SplitLines(JoinLines(lines)) == lines
  {
    var s := JoinLines(lines);
    var l := lines[0];
    if |lines| == 1 {
      assert FirstIndexOf(s, '\n') == |s|;
    } else {
      var rest := JoinLines(lines[1..]);
      assert s == l + "\n" + rest;
      FirstIndexOfAfter(l, rest);
      assert s[..|l|] == l && s[|l| + 1..] == rest;
      SplitJoin(lines[1..]);
    }
  }

  // ---------------------------------------------------------------------------
  // `line.match(/^([^=]+)=(.*)$/)`

  /** The characters `.` does not match: ECMAScript's line terminators. */
  predicate IsLineTerminator(c: char) {
    c == '\n' || c == '\r' || c == '\U{2028}' || c == '\U{2029}'
  }

  predicate NoLineTerminator(s: string) {
    forall i :: 0 <= i < |s| ==> !IsLineTerminator(s[i])
  }

  /** The two capture groups of a match, or the key and value after trimming. */
  datatype Entry = Entry(key: string, value: string)

  /** `[^=]+` cannot cross an '=', so group 1 is everything before the first '=' and must not
      be empty; `(.*)$` must then reach the end of the line (no `m` flag) without a line
      terminator, so group 2 is the rest of the line. */
  function MatchLine(line: string): (m: Option<Entry>)
    ensures m.Some? <==> 0 < FirstIndexOf(line, '=') < |line| && NoLineTerminator(line[FirstIndexOf(line, '=') + 1..])
    ensures m.Some? ==> '=' !in m.value.key && line == m.value.key + "=" + m.value.value
  {
    var k := FirstIndexOf(line, '=');
    if k == 0 || k == |line| || !NoLineTerminator(line[k + 1..]) then None
    else
      assert line == line[..k] + "=" + line[k + 1..];
      Some(Entry(line[..k], line[k + 1..]))
  }

  /** What one line contributes: the trimmed key and trimmed value of a matching line. */
  function ParseEnvLine(line: string): (e: Option<Entry>)
    ensures e.Some? <==> MatchLine(line).Some?
    ensures e.Some? ==> e.value == Entry(Trim(MatchLine(line).value.key), Trim(MatchLine(line).value.value))
  {
    var m := MatchLine(line);
    if m.None? then None else Some(Entry(Trim(m.value.key), Trim(m.value.value)))
  }

  /** Parsing a written entry gives it back, trimmed: the key ends at the first '=', so the
      value may itself hold '='. */
  lemma ParseWrittenEntry(key: string, value: string)
    requires key != [] && '=' !in key
    requires NoLineTerminator(value)
    ensures ParseEnvLine(key + "=" + value) == Some(Entry(Trim(key), Trim(value)))
  {
    var line := key + "=" + value;
    assert forall i :: 0 <= i < |key| ==> line[i] == key[i];
    assert line[|key|] == '=';
    assert FirstIndexOf(line, '=') == |key|;
    assert line[..|key|] == key && line[|key| + 1..] == value;
  }

  /** A line of a CRLF file keeps its '\r' after the split, and `.` does not match it: the
      whole line is skipped. */
  lemma CrLfLineSkipped(key: string, value: string)
    requires key != [] && '=' !in key
    ensures ParseEnvLine(key + "=" + value + "\r") == None
  {
    var line := key + "=" + value + "\r";
    assert forall i :: 0 <= i < |key| ==> line[i] == key[i];
    assert line[|key|] == '=';
    assert FirstIndexOf(line, '=') == |key|;
    assert line[|key| + 1..][|value|] == '\r';
  }

  /** A line with no '=' or starting with '=' is skipped. */
  lemma MalformedLinesSkipped(line: string)
    requires '=' !in line || (line != [] && line[0] == '=')
    ensures ParseEnvLine(line) == None
  {
    if '=' !in line {
      assert FirstIndexOf(line, '=') == |line|;
    }
  }

  // ---------------------------------------------------------------------------
  // `if (!process.env[key]) process.env[key] = value`

  /** `process.env[key]`, `None` when unset. */
  function Lookup(vars: map<string, string>, key: string): Option<string> {
    if key in vars then Some(vars[key]) else None
  }

  /** One line's effect: a matching line sets its key unless the key already holds a
      non-empty value; every other key is untouched. */
  function ApplyLine(vars: map<string, string>, line: string): (r: map<string, string>)
    ensures ParseEnvLine(line).None? ==> r == vars
    ensures ParseEnvLine(line).Some? ==>
              var e := ParseEnvLine(line).value;
              && r.Keys == vars.Keys + {e.key}
              && (forall k :: k in vars && k != e.key ==> r[k] == vars[k])
              && r[e.key] == if Truthy(Lookup(vars, e.key)) then vars[e.key] else e.value
  {
    var e := ParseEnvLine(line);
    if e.None? || Truthy(Lookup(vars, e.value.key)) then vars else vars[e.value.key := e.value.value]
  }

  /** The lines applied in order. */
  function ApplyLines(vars: map<string, string>, lines: seq<string>): map<string, string> {
    if lines == [] then vars
    else ApplyLine(ApplyLines(vars, lines[..|lines| - 1]), lines[|lines| - 1])
  }

  // ---------------------------------------------------------------------------
  // Which value a key ends with

  /** The value one line gives `key`: one value when it is a matching line for that key. */
  function LineValue(line: string, key: string): (vs: seq<string>)
    ensures |vs| <= 1
  {
    var e := ParseEnvLine(line);
    if e.Some? && e.value.key == key then [e.value.value] else []
  }

  /** The trimmed values the lines give for `key`, in file order. */
  function ValuesFor(lines: seq<string>, key: string): seq<string> {
    if lines == [] then []
    else ValuesFor(lines[..|lines| - 1], key) + LineValue(lines[|lines| - 1], key)
  }

  /** The first non-empty value of a list, if any. */
  function FirstNonEmpty(vals: seq<string>): (r: Option<string>)
    ensures r.Some? ==> r.value != "" && r.value in vals
    ensures r.None? <==> forall i :: 0 <= i < |vals| ==> vals[i] == ""
  {
    if vals == [] then None else if vals[0] != "" then Some(vals[0]) else FirstNonEmpty(vals[1..])
  }

  lemma {:induction false} FirstNonEmptyAppend(vals: seq<string>, v: string)
    ensures FirstNonEmpty(vals + [v]) == if FirstNonEmpty(vals).Some? then FirstNonEmpty(vals) else if v != "" then Some(v) else None
  {
    if vals != [] {
      assert (vals + [v])[1..] == vals[1..] + [v];
      FirstNonEmptyAppend(vals[1..], v);
    }
  }

  /** Reference definition of a key's final value, from the value it held before and the
      values the file gives it: the first non-empty one wins; if all are empty the key holds
      ""; a key that neither held a value nor appears in the file stays unset. */
  function Winner(vals: seq<string>): Option<string> {
    if vals == [] then None
    else if FirstNonEmpty(vals).Some? then FirstNonEmpty(vals)
    else Some("")
  }

  function Initial(vars: map<string, string>, key: string): seq<string> {
    if key in vars then [vars[key]] else []
  }

  /** One line, seen from one key: only a line for that key can change it, and only when
      the key held nothing or "". */
  lemma LookupApplyLine(vars: map<string, string>, line: string, key: string)
    ensures var vs := LineValue(line, key);
      Lookup(ApplyLine(vars, line), key) ==
        if vs != [] && !Truthy(Lookup(vars, key)) then Some(vs[0]) else Lookup(vars, key)
  {
  }

  /** Adding one value to the list the reference definition reads. */
  lemma WinnerAppend(all: seq<string>, v: string)
    ensures Winner(all + [v]) == if Truthy(Winner(all)) then Winner(all) else Some(v)
  {
    FirstNonEmptyAppend(all, v);
    if all != [] && FirstNonEmpty(all).None? {
      assert Winner(all) == Some("");
    }
  }

  /** One more line keeps the loop's map in step with the reference definition. */
  lemma ApplyLineStep(vars: map<string, string>, all: seq<string>, line: string, key: string)
    requires Lookup(vars, key) == Winner(all)
    ensures Lookup(ApplyLine(vars, line), key) == Winner(all + LineValue(line, key))
  {
    var tail := LineValue(line, key);
    LookupApplyLine(vars, line, key);
    if tail != [] {
      assert tail == [tail[0]];
      WinnerAppend(all, tail[0]);
    } else {
      assert all + tail == all;
    }
  }

  /** Before any line, a key holds the value it held. */
  lemma WinnerOfInitial(vars: map<string, string>, key: string)
    ensures Lookup(vars, key) == Winner(Initial(vars, key))
  {
    if key in vars && vars[key] == "" {
      assert FirstNonEmpty([vars[key]]) == FirstNonEmpty([]);
    }
  }

  /** The values seen up to and including the last line. */
  lemma ValuesForLast(vars: map<string, string>, lines: seq<string>, key: string)
    requires lines != []
    ensures Initial(vars, key) + ValuesFor(lines, key)
            == (Initial(vars, key) + ValuesFor(lines[..|lines| - 1], key)) + LineValue(lines[|lines| - 1], key)
  {
  }

  /** The loop computes the reference definition for every key. */
  lemma {:induction false} ApplyLinesPicksWinner(vars: map<string, string>, lines: seq<string>, key: string)
    ensures Lookup(ApplyLines(vars, lines), key) == Winner(Initial(vars, key) + ValuesFor(lines, key))
  {
    if lines == [] {
      assert Initial(vars, key) + ValuesFor(lines, key) == Initial(vars, key);
      WinnerOfInitial(vars, key);
    } else {
      var n := |lines| - 1;
      ApplyLinesPicksWinner(vars, lines[..n], key);
      ApplyLineStep(ApplyLines(vars, lines[..n]), Initial(vars, key) + ValuesFor(lines[..n], key), lines[n], key);
      ValuesForLast(vars, lines, key);
    }
  }

  /** A non-empty value set before loading is never overwritten by the file. */
  lemma NonEmptyValueKept(vars: map<string, string>, lines: seq<string>, key: string)
    requires key in vars && vars[key] != ""
    ensures key in ApplyLines(vars, lines) && ApplyLines(vars, lines)[key] == vars[key]
  {
    ApplyLinesPicksWinner(vars, lines, key);
    assert (Initial(vars, key) + ValuesFor(lines, key))[0] == vars[key];
  }

  /** A key unset before loading ends with the first non-empty value the file gives it. */
  lemma FirstNonEmptyInFileWins(vars: map<string, string>, lines: seq<string>, key: string)
    requires key !in vars
    requires FirstNonEmpty(ValuesFor(lines, key)).Some?
    ensures Lookup(ApplyLines(vars, lines), key) == FirstNonEmpty(ValuesFor(lines, key))
  {
    ApplyLinesPicksWinner(vars, lines, key);
    assert Initial(vars, key) + ValuesFor(lines, key) == ValuesFor(lines, key);
  }

  // ---------------------------------------------------------------------------
  // The loader

  /** `process.env` as the loader sees it. */
  class Env {
    var vars: map<string, string>

    constructor(vars: map<string, string>)
      ensures this.vars == vars
    {
      this.vars := vars;
    }

    /** `file` is the text `readFileSync` returns, `None` when it throws: then the warning is
        logged and nothing changes. */
    method LoadEnvFile(file: Option<string>)
      modifies this
      ensures file.None? ==> vars == old(vars)
      ensures file.Some? ==> vars == ApplyLines(old(vars), SplitLines(file.value))
    {
      if file.None? {
        return;
      }
      var lines := SplitLines(file.value);
      var i := 0;
      while i < |lines|
        invariant 0 <= i <= |lines|
        invariant vars == ApplyLines(old(vars), lines[..i])
      {
        assert lines[..i + 1][..i] == lines[..i];
        vars := ApplyLine(vars, lines[i]);
        i := i + 1;
      }
      assert lines[..i] == lines;
    }
  }
}
