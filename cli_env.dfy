/** The text the setup wizard writes to its `.env` file (`format_env_value`
    and the line building of `write_env_file`) and the normalisation of the
    Azure endpoint it asks for (`normalize_endpoint`). A small reader for the
    written lines shows that nothing is lost. */
module CliEnv {
  import opened PyText

  /** The character class `[\s#'"\\]` that forces quoting. */
  predicate NeedsQuoting(c: char) {
    IsPythonSpace(c) || c == '#' || c == '\'' || c == '"' || c == '\\'
  }

  /** `re.search(r"""[\s#'"\\]""", value)` found a match. */
  predicate AnyNeedsQuoting(v: string) {
    exists i :: 0 <= i < |v| && NeedsQuoting(v[i])
  }

  /** `s.replace(target, replacement)` for a one-character `target`. */
  function ReplaceChar(s: string, target: char, replacement: string): string {
    if |s| == 0 then "" else (if s[0] == target then replacement else [s[0]]) + ReplaceChar(s[1..], target, replacement)
  }

  /** `value.replace("\\", "\\\\").replace('"', '\\"')`: two passes. */
  function EscapeForQuotes(v: string): string {
    ReplaceChar(ReplaceChar(v, '\\', "\\\\"), '"', "\\\"")
  }

  function FormatEnvValue(v: string): (r: string)
    ensures v == "" ==> r == "\"\""
    ensures v != "" && !AnyNeedsQuoting(v) ==> r == v
    ensures AnyNeedsQuoting(v) ==> |r| >= 2 && r[0] == '"' && r[|r| - 1] == '"'
    ensures AnyNeedsQuoting(v) ==> r == "\"" + EscapeOnePass(v) + "\""
  {
    if v == "" then "\"\""
    else if exists i | 0 <= i < |v| :: NeedsQuoting(v[i]) then
      TwoPassesAreOnePass(v);
      "\"" + EscapeForQuotes(v) + "\""
    else v
  }

  /** Escaping each backslash and each double quote in one pass. */
  function EscapeOnePass(v: string): string {
    if |v| == 0 then ""
    else (if v[0] == '\\' then "\\\\" else if v[0] == '"' then "\\\"" else [v[0]]) + EscapeOnePass(v[1..])
  }

  lemma {:induction false} ReplaceCharAppend(a: string, b: string, target: char, replacement: string)
    ensures ReplaceChar(a + b, target, replacement) == ReplaceChar(a, target, replacement) + ReplaceChar(b, target, replacement)
    decreases |a|
  {
    if |a| > 0 {
      assert (a + b)[1..] == a[1..] + b;
      ReplaceCharAppend(a[1..], b, target, replacement);
    } else {
      assert a + b == b;
    }
  }

  /** Doubling backslashes before escaping quotes is the same as escaping both
      in one pass: the backslash added in front of a quote is not doubled again. */
  lemma {:induction false} TwoPassesAreOnePass(v: string)
    ensures EscapeForQuotes(v) == EscapeOnePass(v)
    decreases |v|
  {
    if |v| > 0 {
      var head := if v[0] == '\\' then "\\\\" else [v[0]];
      assert ReplaceChar(v, '\\', "\\\\") == head + ReplaceChar(v[1..], '\\', "\\\\");
      ReplaceCharAppend(head, ReplaceChar(v[1..], '\\', "\\\\"), '"', "\\\"");
      TwoPassesAreOnePass(v[1..]);
      if v[0] == '\\' {
        assert ReplaceChar(head, '"', "\\\"") == "\\\\" by {
          assert head[1..] == "\\";
          assert head[1..][1..] == "";
        }
      } else {
        assert head[1..] == "";
      }
    }
  }

  /** Reading back a double-quoted value: a backslash takes the next character
      literally. */
  function UnescapeQuoted(t: string): string {
    if |t| == 0 then ""
    else if t[0] == '\\' && |t| >= 2 then [t[1]] + UnescapeQuoted(t[2..])
    else [t[0]] + UnescapeQuoted(t[1..])
  }

  /** A value as a reader of the `.env` file sees it: quotes removed and
      escapes undone when it is double-quoted, the text itself otherwise. */
  function ReadEnvValue(s: string): string {
    if |s| >= 2 && s[0] == '"' && s[|s| - 1] == '"' then UnescapeQuoted(s[1..|s| - 1]) else s
  }

  lemma {:induction false} UnescapeOnePass(v: string)
    ensures UnescapeQuoted(EscapeOnePass(v)) == v
    decreases |v|
  {
    if |v| > 0 {
      UnescapeOnePass(v[1..]);
      var e := EscapeOnePass(v);
      if v[0] == '\\' || v[0] == '"' {
        assert e[2..] == EscapeOnePass(v[1..]);
      } else {
        assert e[1..] == EscapeOnePass(v[1..]);
      }
      assert [v[0]] + v[1..] == v;
    }
  }

  /** Every value survives being written and read back. */
  lemma FormatEnvValueRoundTrip(v: string)
    ensures ReadEnvValue(FormatEnvValue(v)) == v
  {
    if v == "" {
    } else if AnyNeedsQuoting(v) {
      var r := FormatEnvValue(v);
      assert r[1..|r| - 1] == EscapeForQuotes(v);
      TwoPassesAreOnePass(v);
      UnescapeOnePass(v);
    } else {
      assert !NeedsQuoting(v[0]);
    }
  }

  lemma {:induction false} ReplaceCharKeepsOut(s: string, target: char, replacement: string, c: char)
    requires c !in s && c !in replacement
    ensures c !in ReplaceChar(s, target, replacement)
    decreases |s|
  {
    if |s| > 0 {
      ReplaceCharKeepsOut(s[1..], target, replacement, c);
    }
  }

  /** Formatting never introduces a line break (it only adds quotes and
      backslashes). */
  lemma FormatAddsNoNewline(v: string)
    requires '\n' !in v
    ensures '\n' !in FormatEnvValue(v)
  {
    ReplaceCharKeepsOut(v, '\\', "\\\\", '\n');
    ReplaceCharKeepsOut(ReplaceChar(v, '\\', "\\\\"), '"', "\\\"", '\n');
  }

  // ------------------------------------------------------------ the env file

  function EnvLine(key: string, value: string): string {
    key + "=" + FormatEnvValue(value)
  }

  /** One line per entry, in insertion order. */
  function EnvLines(kvs: seq<(string, string)>): (ls: seq<string>)
    ensures |ls| == |kvs|
    ensures forall i :: 0 <= i < |kvs| ==> ls[i] == EnvLine(kvs[i].0, kvs[i].1)
  {
    if |kvs| == 0 then [] else EnvLines(kvs[..|kvs| - 1]) + [EnvLine(kvs[|kvs| - 1].0, kvs[|kvs| - 1].1)]
  }

  /** The text `write_env_file` writes for a dictionary given as its items in
      insertion order. */
  method EnvFileText(kvs: seq<(string, string)>) returns (text: string)
    ensures text == Join(EnvLines(kvs), "\n") + "\n"
  {
    var lines: seq<string> := [];
    var i := 0;
    while i < |kvs|
      invariant 0 <= i <= |kvs|
      invariant lines == EnvLines(kvs[..i])
    {
      var (k, v) := kvs[i];
      assert kvs[..i + 1][..i] == kvs[..i];
      lines := lines + [k + "=" + FormatEnvValue(v)];
      i := i + 1;
    }
    assert kvs[..i] == kvs;
    text := Join(lines, "\n") + "\n";
  }

  /** Read a line `key=value` at its first '='. */
  function ParseLine(line: string): (string, string) {
    var parts := Split(line, '=');
    (parts[0], ReadEnvValue(Join(parts[1..], "=")))
  }

  /** Read the lines of an env file, skipping blank ones. */
  function ParseLines(ls: seq<string>): seq<(string, string)> {
    if |ls| == 0 then []
    else if ls[0] == "" then ParseLines(ls[1..])
    else [ParseLine(ls[0])] + ParseLines(ls[1..])
  }

  function ParseEnvText(text: string): seq<(string, string)> {
    ParseLines(Split(text, '\n'))
  }

  lemma {:induction false} JoinSplit(s: string, c: char)
    ensures Join(Split(s, c), [c]) == s
    decreases |s|
  {
    if |s| > 0 {
      JoinSplit(s[1..], c);
      var rest := Split(s[1..], c);
      if s[0] == c {
        assert Split(s, c) == [""] + rest;
        assert ([""] + rest)[1..] == rest;
      } else {
        if |rest| == 1 {
          assert Split(s, c) == [[s[0]] + rest[0]];
        } else {
          assert Split(s, c) == [[s[0]] + rest[0]] + rest[1..];
          assert Join(rest, [c]) == rest[0] + [c] + Join(rest[1..], [c]);
        }
      }
    }
  }

  lemma ParseEnvLine(key: string, value: string)
    requires '=' !in key
    ensures ParseLine(EnvLine(key, value)) == (key, value)
  {
    var rest := FormatEnvValue(value);
    assert EnvLine(key, value) == key + ['='] + rest;
    SplitAtSeparator(key, '=', rest);
    assert Split(EnvLine(key, value), '=')[1..] == Split(rest, '=');
    JoinSplit(rest, '=');
    FormatEnvValueRoundTrip(value);
  }

  lemma {:induction false} ParseEnvLines(kvs: seq<(string, string)>)
    requires forall i :: 0 <= i < |kvs| ==> '=' !in kvs[i].0
    ensures ParseLines(EnvLines(kvs) + [""]) == kvs
    decreases |kvs|
  {
    var ls := EnvLines(kvs);
    if |kvs| == 0 {
      assert ls + [""] == [""];
    } else {
      ParseEnvLine(kvs[0].0, kvs[0].1);
      assert ls[0] != "" by {
        assert '=' in ls[0] by {
          assert ls[0][|kvs[0].0|] == '=';
        }
      }
      var tail := kvs[1..];
      assert EnvLines(tail) == ls[1..];
      assert (ls + [""])[1..] == EnvLines(tail) + [""];
      ParseEnvLines(tail);
      assert [kvs[0]] + tail == kvs;
    }
  }

  lemma LinesHaveNoNewline(kvs: seq<(string, string)>)
    requires forall i :: 0 <= i < |kvs| ==> '\n' !in kvs[i].0 && '\n' !in kvs[i].1
    ensures forall i :: 0 <= i < |kvs| ==> '\n' !in EnvLines(kvs)[i]
  {
    forall i | 0 <= i < |kvs| ensures '\n' !in EnvLines(kvs)[i] {
      FormatAddsNoNewline(kvs[i].1);
    }
  }

  /** Text made of lines without line breaks, each ended by "\n", splits back
      into those lines and a final empty one. */
  lemma SplitTerminatedLines(ls: seq<string>)
    requires |ls| >= 1
    requires forall i :: 0 <= i < |ls| ==> '\n' !in ls[i]
    ensures Split(Join(ls, "\n") + "\n", '\n') == ls + [""]
  {
    var parts := ls + [""];
    JoinAppend(ls, [""], "\n");
    assert forall i :: 0 <= i < |parts| ==> '\n' !in parts[i] by {
      forall i | 0 <= i < |parts| ensures '\n' !in parts[i] {
        if i < |ls| {
          assert parts[i] == ls[i];
        }
      }
    }
    SplitJoin(parts, '\n');
    var text := Join(ls, "\n") + "\n";
    assert Join([""], "\n") == "";
    assert Join(parts, "\n") == text + "";
    assert text + "" == text;
  }

  /** An empty dictionary gives a file holding one line break, which reads
      back as no entries. */
  lemma EmptyEnvFile()
    ensures ParseEnvText("\n") == []
  {
    var text := "\n";
    assert text[0] == '\n' && text[1..] == "";
    assert Split(text, '\n') == ["", ""];
    var ls := ["", ""];
    assert ls[1..] == [""];
    assert ls[1..][1..] == [];
  }

  /** The env file reads back as the dictionary it was written from, as long as
      no key contains '=' or a line break and no value contains a line break. */
  lemma EnvFileRoundTrip(kvs: seq<(string, string)>)
    requires forall i :: 0 <= i < |kvs| ==> '=' !in kvs[i].0 && '\n' !in kvs[i].0 && '\n' !in kvs[i].1
    ensures ParseEnvText(Join(EnvLines(kvs), "\n") + "\n") == kvs
  {
    var ls := EnvLines(kvs);
    var text := Join(ls, "\n") + "\n";
    if |kvs| == 0 {
      assert ls == [];
      assert text == "\n";
      EmptyEnvFile();
    } else {
      LinesHaveNoNewline(kvs);
      SplitTerminatedLines(ls);
      assert Split(text, '\n') == ls + [""];
      ParseEnvLines(kvs);
      assert ParseLines(ls + [""]) == kvs;
      assert ParseEnvText(text) == ParseLines(Split(text, '\n'));
    }
  }

  // ---------------------------------------------------------- the endpoint

  /** `normalize_endpoint`: strip surrounding whitespace and make sure a
      non-empty endpoint ends in '/'. */
  function NormalizeEndpoint(endpoint: string): (r: string)
    ensures r == "" <==> Strip(endpoint) == ""
    ensures r == Strip(endpoint) || r == Strip(endpoint) + "/"
    ensures r != "" ==> EndsWith(r, "/") && !IsPythonSpace(r[0]) && !IsPythonSpace(r[|r| - 1])
    ensures EndsWith(Strip(endpoint), "/") ==> r == Strip(endpoint)
  {
    var e := Strip(endpoint);
    if e != "" && !EndsWith(e, "/") then e + "/" else e
  }

  /** Normalising twice changes nothing more. */
  lemma NormalizeEndpointIdempotent(endpoint: string)
    ensures NormalizeEndpoint(NormalizeEndpoint(endpoint)) == NormalizeEndpoint(endpoint)
  {
    var r := NormalizeEndpoint(endpoint);
    StripOfTrimmed(r);
  }
}
