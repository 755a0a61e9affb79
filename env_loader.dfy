/**
 * The `.env` loader run at start-up: the file's text is split into lines,
 * each line is stripped, comments, blank lines and lines without '=' are
 * skipped, and every other line sets one environment variable, later lines
 * overwriting earlier ones.
 *
 * Whether the file exists and which encoding decoded it are file-system
 * matters: the loader receives the decoded text, or `None` for a missing file.
 */
module EnvLoader {
  import opened Wrappers
  import opened Text

  /** The line boundaries of `str.splitlines`. */
  predicate IsLineBreak(c: char)
  {
    c == '\n' || c == '\r' || c == '\U{0B}' || c == '\U{0C}' || ('\U{1C}' <= c <= '\U{1E}')
    || c == '\U{85}' || c == '\U{2028}' || c == '\U{2029}'
  }

  /** The position of the first line boundary, or `|s|`. */
  function BreakAt(s: string): (i: nat)
    ensures i <= |s|
    ensures i < |s| ==> IsLineBreak(s[i])
    ensures forall k :: 0 <= k < i ==> !IsLineBreak(s[k])
  {
    if s == [] || IsLineBreak(s[0]) then 0 else 1 + BreakAt(s[1..])
  }

  /** A line without boundaries. */
  predicate IsLine(line: string)
  {
    forall k :: 0 <= k < |line| ==> !IsLineBreak(line[k])
  }

  /** `s.splitlines()`: "\r\n" is one boundary, and a final boundary opens no empty line. */
  function SplitLines(s: string): (lines: seq<string>)
    ensures forall j :: 0 <= j < |lines| ==> IsLine(lines[j])
    ensures s == [] <==> lines == []
    ensures IsLine(s) && s != [] ==> lines == [s]
    decreases |s|
  {
    if s == [] then []
    else
      var i := BreakAt(s);
      if i == |s| then [s]
      else
        var width := if s[i] == '\r' && i + 1 < |s| && s[i + 1] == '\n' then 2 else 1;
        [s[..i]] + SplitLines(s[i + width..])
  }

  /** `value.strip().strip('"').strip("'")`. */
  function Unquote(value: string): string
  {
    StripBy(StripBy(Strip(value), IsChar('"')), IsChar('\''))
  }

  /** The stripped line is kept: it is non-empty, not a comment, and has an '='. */
  predicate IsAssignment(stripped: string)
  {
    stripped != [] && stripped[0] != '#' && '=' in stripped
  }

  /** `t.split('=', 1)` on a text holding '=': the text before the first '=' and everything after it. */
  function SplitFirst(t: string): (r: (string, string))
    requires '=' in t
    ensures t == r.0 + "=" + r.1
    ensures '=' !in r.0
  {
    var i := FirstIndex(t, '=');
    assert t == t[..i] + "=" + t[i + 1..];
    (t[..i], t[i + 1..])
  }

  /** The `(key, value)` a line sets; `None` for a skipped line. */
  function ParseLine(line: string): (r: Option<(string, string)>)
    ensures r.None? <==> !IsAssignment(Strip(line))
  {
    var t := Strip(line);
    if !IsAssignment(t) then None
    else
      var (key, value) := SplitFirst(t);
      Some((Strip(key), Unquote(value)))
  }

  /** A kept line sets the stripped text before its first '=' to the unquoted text after it, which may hold more '='. */
  lemma ParseLineSpec(line: string)
    ensures ParseLine(line).Some? ==> exists before, after ::
      && Strip(line) == before + "=" + after
      && '=' !in before
      && ParseLine(line).value == (Strip(before), Unquote(after))
  {
    if ParseLine(line).Some? {
      var parts := SplitFirst(Strip(line));
      assert Strip(line) == parts.0 + "=" + parts.1;
    }
  }

  /** What `line.strip()` followed by the guards and the split makes of each line. */
  type Entry = Option<(string, string)>

  /** The parsed lines, position by position. */
  function Entries(lines: seq<string>): seq<Entry>
  {
    seq(|lines|, j requires 0 <= j < |lines| => ParseLine(lines[j]))
  }

  /** `os.environ[key] = value` for an assignment with a non-empty key. */
  function Store(env: map<string, string>, e: Entry): map<string, string>
  {
    match e
    case None => env
    case Some((k, v)) => if k == "" then env else env[k := v]
  }

  /** The variables after storing `entries` in order. */
  function StoreAll(env: map<string, string>, entries: seq<Entry>): map<string, string>
  {
    if entries == [] then env
    else Store(StoreAll(env, entries[..|entries| - 1]), entries[|entries| - 1])
  }

  /** The variables after loading `lines`. */
  function Apply(env: map<string, string>, lines: seq<string>): map<string, string>
  {
    StoreAll(env, Entries(lines))
  }

  /** Entry `e` assigns the variable `key`. */
  predicate Sets(e: Entry, key: string)
  {
    e.Some? && e.value.0 == key && key != ""
  }

  /** Entry `j` sets `key` to `value` and no later entry sets `key`. */
  predicate LastSetter(entries: seq<Entry>, key: string, j: int, value: string)
  {
    0 <= j < |entries| && entries[j] == Some((key, value)) && key != ""
    && forall j' :: j < j' < |entries| ==> !Sets(entries[j'], key)
  }

  /** The value the last entry setting `key` gives it, if any entry does. */
  function LastFor(entries: seq<Entry>, key: string): Option<string>
  {
    if entries == [] then None
    else if Sets(entries[|entries| - 1], key) then Some(entries[|entries| - 1].value.1)
    else LastFor(entries[..|entries| - 1], key)
  }

  /** `LastFor` is the value of an entry setting `key` that no later entry overrides, and `None` when no entry sets it. */
  lemma {:induction false} LastForSpec(entries: seq<Entry>, key: string)
    ensures LastFor(entries, key).Some? ==> exists j :: LastSetter(entries, key, j, LastFor(entries, key).value)
    ensures LastFor(entries, key).None? <==> forall j :: 0 <= j < |entries| ==> !Sets(entries[j], key)
  {
    if entries != [] {
      var init := entries[..|entries| - 1];
      LastForSpec(init, key);
      assert forall j :: 0 <= j < |init| ==> init[j] == entries[j];
      if Sets(entries[|entries| - 1], key) {
        assert LastSetter(entries, key, |entries| - 1, LastFor(entries, key).value);
      } else if LastFor(entries, key).Some? {
        var j :| LastSetter(init, key, j, LastFor(init, key).value);
        assert LastSetter(entries, key, j, LastFor(entries, key).value);
      }
    }
  }

  /** A variable holds the value of the last entry that sets it; a variable no entry sets keeps its old state. */
  lemma {:induction false} LastWins(env: map<string, string>, entries: seq<Entry>, key: string)
    ensures LastFor(entries, key).Some? ==> key in StoreAll(env, entries) && StoreAll(env, entries)[key] == LastFor(entries, key).value
    ensures LastFor(entries, key).None? ==> (key in StoreAll(env, entries) <==> key in env)
    ensures LastFor(entries, key).None? && key in env ==> StoreAll(env, entries)[key] == env[key]
  {
    if entries != [] {
      LastWins(env, entries[..|entries| - 1], key);
    }
  }

  /** `os.environ`, the state `load_env` writes. */
  class Environment {
    var vars: map<string, string>

    constructor (initial: map<string, string>)
      ensures vars == initial
    {
      vars := initial;
    }

    /** `load_env`: nothing changes without a file; otherwise each line of the text is applied in order. */
    method LoadEnv(file: Option<string>)
      modifies this
      ensures file.None? ==> vars == old(vars)
      ensures file.Some? ==> vars == Apply(old(vars), SplitLines(file.value))
    {
      if file.None? {
        return;
      }
      var lines := SplitLines(file.value);
      ghost var entries := Entries(lines);
      var i := 0;
      while i < |lines|
        invariant 0 <= i <= |lines|
        invariant vars == StoreAll(old(vars), entries[..i])
      {
        assert entries[..i + 1][..i] == entries[..i];
        var entry := ParseLine(lines[i]);
        assert entry == entries[i];
        if entry.Some? {
          var key := entry.value.0;
          if key != "" {
            vars := vars[key := entry.value.1];
          }
        }
        i := i + 1;
      }
      assert entries[..i] == entries;
    }
  }

  /** `os.environ[key] = value` as the platform performs it: an empty name is rejected with an error. */
  function SetVarAsWritten(env: map<string, string>, key: string, value: string): Result<map<string, string>, string>
  {
    if key == "" then Err("Invalid argument") else Ok(env[key := value])
  }

  /** The loop as written: every parsed line is assigned, so an empty key ends the load with an error. */
  function StoreAllAsWritten(env: map<string, string>, entries: seq<Entry>): Result<map<string, string>, string>
  {
    if entries == [] then Ok(env)
    else
      match StoreAllAsWritten(env, entries[..|entries| - 1])
      case Err(e) => Err(e)
      case Ok(before) =>
        match entries[|entries| - 1]
        case None => Ok(before)
        case Some((k, v)) => SetVarAsWritten(before, k, v)
  }

  /** A line that is nothing but `=x` passes every guard, has an empty key, and aborts the load. */
  lemma EmptyKeyAbortsAsWritten(env: map<string, string>)
    ensures ParseLine("=x") == Some(("", "x"))
    ensures StoreAllAsWritten(env, Entries(["=x"])).Err?
  {
    var line := "=x";
    assert LStrip(line, IsSpace) == line;
    assert RStrip(line, IsSpace) == line;
    assert Strip(line) == line;
    assert IsAssignment(line);
    assert FirstIndex(line, '=') == 0;
    assert line[..0] == "";
    assert line[1..] == "x";
    assert Strip("") == "";
    assert LStrip("x", IsSpace) == "x";
    assert RStrip("x", IsSpace) == "x";
    assert LStrip("x", IsChar('"')) == "x" && RStrip("x", IsChar('"')) == "x";
    assert LStrip("x", IsChar('\'')) == "x" && RStrip("x", IsChar('\'')) == "x";
    assert Unquote("x") == "x";
    var es := Entries([line]);
    assert es[0] == Some(("", "x"));
    assert es[..0] == [];
  }

  /** Without entries of empty key, the loop as written and the corrected one agree. */
  lemma {:induction false} AsWrittenAgrees(env: map<string, string>, entries: seq<Entry>)
    requires forall j :: 0 <= j < |entries| ==> entries[j].Some? ==> entries[j].value.0 != ""
    ensures StoreAllAsWritten(env, entries) == Ok(StoreAll(env, entries))
  {
    if entries != [] {
      AsWrittenAgrees(env, entries[..|entries| - 1]);
    }
  }

  /** The corrected loop always completes and never creates a variable with an empty name. */
  lemma {:induction false} NoEmptyName(env: map<string, string>, entries: seq<Entry>)
    ensures "" in StoreAll(env, entries) <==> "" in env
  {
    if entries != [] {
      NoEmptyName(env, entries[..|entries| - 1]);
    }
  }
}
