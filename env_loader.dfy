/**
 * The notebook kernel's environment loader: `parse_env_file`, a line parser
 * for shell environment files (`KEY=value`, `export KEY=value` and Fish's
 * `set -gx KEY value`), and `load_thinkube_environment`, which applies three
 * such files over the process environment in a fixed order.
 *
 * A file is its sequence of lines, or None when it does not exist; the
 * process environment is an object holding a map.
 */
module EnvLoader {

  import opened Wrappers
  import opened Strings

  /** What one line contributes: nothing, or one key and its value. */
  datatype LineEntry = Skip | Entry(key: string, value: string)

  const ExportPrefix := "export "
  const FishPrefix := "set -gx "

  /** Surrounded by one kind of quote: `"…"` or `'…'`, a lone quote character included. */
  predicate Quoted(v: string) {
    || (StartsWith(v, "\"") && EndsWith(v, "\""))
    || (StartsWith(v, "'") && EndsWith(v, "'"))
  }

  /** Lines 56-58: one pair of surrounding quotes is removed, `value[1:-1]`. */
  function Unquote(v: string): (r: string)
    ensures !Quoted(v) ==> r == v
    ensures Quoted(v) && |v| >= 2 ==> v == [v[0]] + r + [v[0]]
    ensures Quoted(v) && |v| < 2 ==> r == []
  {
    if Quoted(v) then (if |v| >= 2 then v[1..|v| - 1] else []) else v
  }

  /** Quoting a text that does not need it and unquoting it gives the text back. */
  lemma UnquoteQuoted(s: string, q: char)
    requires q == '"' || q == '\''
    ensures Unquote([q] + s + [q]) == s
  {
    var v := [q] + s + [q];
    assert v[..1] == [q] && v[|v| - 1..] == [q];
    assert v[1..|v| - 1] == s;
  }

  /** Line 45: every leading and trailing `"` removed, then every leading and trailing `'`. */
  function FishValue(v: string): string {
    StripChar(StripChar(v, '"'), '\'')
  }

  /** The line once trimmed and freed of one leading `export `. */
  function Unprefixed(t: string): string {
    if StartsWith(t, ExportPrefix) then t[|ExportPrefix|..] else t
  }

  /** Lines 40-60, given the trimmed line without its `export ` prefix. */
  function ParseStatement(l: string): (e: LineEntry)
    ensures e.Entry? ==> Trimmed(e.key)
  {
    if StartsWith(l, FishPrefix) then
      var parts := SplitWhitespaceOnce(l[|FishPrefix|..]);
      if |parts| == 2 then Entry(parts[0], FishValue(parts[1])) else Skip
    else
      match FirstIndex(l, '=')
      case None => Skip
      case Some(i) => Entry(Strip(l[..i]), Unquote(Strip(l[i + 1..])))
  }

  /** Lines 29-60 for one line of the file. */
  function ParseLine(raw: string): (e: LineEntry)
    ensures e.Entry? ==> Trimmed(e.key)
    ensures AllSpace(raw) ==> e == Skip
  {
    var t := Strip(raw);
    if t == [] || t[0] == '#' then Skip else ParseStatement(Unprefixed(t))
  }

  /** One entry applied to the dictionary being built: a later value for a key replaces an earlier one. */
  function Apply(m: map<string, string>, e: LineEntry): map<string, string> {
    match e
    case Skip => m
    case Entry(k, v) => m[k := v]
  }

  /** The dictionary built from `entries`, applied first to last. */
  function Collect(entries: seq<LineEntry>): map<string, string> {
    if entries == [] then map[] else Apply(Collect(entries[..|entries| - 1]), entries[|entries| - 1])
  }

  /** What each line of a file contributes, line by line. */
  function Entries(lines: seq<string>): (es: seq<LineEntry>)
    ensures |es| == |lines|
    ensures forall i :: 0 <= i < |lines| ==> es[i] == ParseLine(lines[i])
  {
    seq(|lines|, i requires 0 <= i < |lines| => ParseLine(lines[i]))
  }

  /** The dictionary the loop of lines 28-60 builds from `lines`. */
  function ParseLines(lines: seq<string>): map<string, string> {
    Collect(Entries(lines))
  }

  /** `parse_env_file`: a missing file gives the empty dictionary. */
  method ParseEnvFile(file: Option<seq<string>>) returns (envVars: map<string, string>)
    ensures envVars == FileVars(file)
  {
    envVars := map[];
    if file.None? {
      return;
    }
    var lines := file.value;
    ghost var es := Entries(lines);
    var i := 0;
    while i < |lines|
      invariant 0 <= i <= |lines|
      invariant envVars == Collect(es[..i])
    {
      assert es[..i + 1][..i] == es[..i];
      match ParseLine(lines[i]) {
        case Skip =>
        case Entry(key, value) =>
          envVars := envVars[key := value];
      }
      i := i + 1;
    }
    assert es[..i] == es;
  }

  // ---------------------------------------------------------------------
  // Properties of the line parser

  /** A blank line or a comment appended to a file adds nothing. */
  lemma IgnoredLine(lines: seq<string>, raw: string)
    requires Strip(raw) == [] || Strip(raw)[0] == '#'
    ensures ParseLine(raw) == Skip
    ensures ParseLines(lines + [raw]) == ParseLines(lines)
  {
    AppendLine(lines, raw);
  }

  /** A blank line or a comment adds nothing, wherever it stands in a file. */
  lemma {:induction false} IgnoredAnywhere(before: seq<string>, raw: string, after: seq<string>)
    requires Strip(raw) == [] || Strip(raw)[0] == '#'
    ensures ParseLines(before + [raw] + after) == ParseLines(before + after)
    decreases |after|
  {
    if after == [] {
      assert before + [raw] + after == before + [raw];
      assert before + after == before;
      IgnoredLine(before, raw);
    } else {
      var init, last := after[..|after| - 1], after[|after| - 1];
      assert before + [raw] + after == (before + [raw] + init) + [last];
      assert before + after == (before + init) + [last];
      AppendLine(before + [raw] + init, last);
      AppendLine(before + init, last);
      IgnoredAnywhere(before, raw, init);
    }
  }

  /** A line appended to a file is applied after all the others. */
  lemma AppendLine(lines: seq<string>, raw: string)
    ensures ParseLines(lines + [raw]) == Apply(ParseLines(lines), ParseLine(raw))
  {
    var es := Entries(lines + [raw]);
    assert es == Entries(lines) + [ParseLine(raw)];
    assert es[..|es| - 1] == Entries(lines);
  }

  lemma ExportDoesNotStartWithPrefix(s: string)
    requires Trimmed(s) && s != []
    requires !StartsWith(s, ExportPrefix)
    ensures Strip(ExportPrefix + s) == ExportPrefix + s
    ensures StartsWith(ExportPrefix + s, ExportPrefix)
    ensures Unprefixed(ExportPrefix + s) == s
  {
    var l := ExportPrefix + s;
    assert l[0] == 'e' && l[|l| - 1] == s[|s| - 1];
    assert l[..|ExportPrefix|] == ExportPrefix;
    assert l[|ExportPrefix|..] == s;
  }

  /**
   * A leading `export ` is dropped: `export K=V` gives what `K=V` gives, for
   * any trimmed line that is not a comment and does not itself start with
   * `export `.
   */
  lemma ExportPrefixDropped(s: string)
    requires Trimmed(s) && s != []
    requires s[0] != '#' && !StartsWith(s, ExportPrefix)
    ensures ParseLine(ExportPrefix + s) == ParseLine(s)
  {
    var l := ExportPrefix + s;
    ExportDoesNotStartWithPrefix(s);
    assert l[0] == 'e';
    TrimmedLine(l);
    TrimmedLine(s);
  }

  /** A trimmed line that is not blank or a comment is parsed as a statement. */
  lemma TrimmedLine(t: string)
    requires Trimmed(t) && t != [] && t[0] != '#'
    ensures ParseLine(t) == ParseStatement(Unprefixed(t))
  {
    assert Strip(t) == t;
  }

  /** A line of the form `set -gx ...` is already trimmed and reaches the `set -gx` branch. */
  lemma FishShape(rest: string)
    requires rest != [] && !IsSpace(rest[|rest| - 1])
    ensures var raw := FishPrefix + rest;
      && Strip(raw) == raw && raw[0] != '#'
      && !StartsWith(raw, ExportPrefix)
      && StartsWith(raw, FishPrefix)
      && raw[|FishPrefix|..] == rest
  {
    var raw := FishPrefix + rest;
    assert raw[0] == 's' && raw[|raw| - 1] == rest[|rest| - 1];
    assert raw[..|FishPrefix|] == FishPrefix;
    assert raw[|FishPrefix|..] == rest;
    NotPrefixed(raw, ExportPrefix, 0);
  }

  /** A `set -gx` line ending in a non-space sets what `split(None, 1)` of its tail gives. */
  lemma FishStatement(rest: string)
    requires rest != [] && !IsSpace(rest[|rest| - 1])
    ensures var parts := SplitWhitespaceOnce(rest);
      ParseLine(FishPrefix + rest) == if |parts| == 2 then Entry(parts[0], FishValue(parts[1])) else Skip
  {
    FishShape(rest);
  }

  /**
   * `set -gx KEY VALUE`, with any whitespace before KEY, is split at the
   * first whitespace run after the key; the value loses its surrounding `"`
   * and then its surrounding `'`.
   */
  lemma FishLine(lead: string, key: string, run: string, value: string)
    requires AllSpace(lead)
    requires key != [] && NoSpace(key)
    requires run != [] && AllSpace(run)
    requires value != [] && Trimmed(value)
    ensures ParseLine(FishPrefix + lead + key + run + value) == Entry(key, FishValue(value))
  {
    var w := key + run + value;
    assert w[0] == key[0] && w[|w| - 1] == value[|value| - 1];
    assert FishPrefix + lead + key + run + value == FishPrefix + lead + w;
    FishTail(lead, w);
    SplitWordRunRest(key, run, value);
  }

  /**
   * `set -gx` followed by a single word adds nothing, even when the word
   * holds a `=`: such lines never reach the `=` branch.
   */
  lemma FishLineWithoutValue(lead: string, word: string)
    requires AllSpace(lead)
    requires word != [] && NoSpace(word)
    ensures ParseLine(FishPrefix + lead + word) == Skip
  {
    FishTail(lead, word);
    SplitWordTrail(word, []);
    assert word + [] == word;
  }

  /** Whitespace after `set -gx ` does not change what the line sets. */
  lemma FishTail(lead: string, w: string)
    requires AllSpace(lead)
    requires w != [] && !IsSpace(w[0]) && !IsSpace(w[|w| - 1])
    ensures var parts := SplitWhitespaceOnce(w);
      ParseLine(FishPrefix + lead + w) == if |parts| == 2 then Entry(parts[0], FishValue(parts[1])) else Skip
  {
    var rest := lead + w;
    assert rest[|rest| - 1] == w[|w| - 1];
    assert FishPrefix + lead + w == FishPrefix + rest;
    FishStatement(rest);
    SplitOfLead(lead, w);
  }

  /** A text that differs from `prefix` at index `n` does not start with it. */
  lemma NotPrefixed(s: string, prefix: string, n: nat)
    requires n < |prefix| && n < |s| && s[n] != prefix[n]
    ensures !StartsWith(s, prefix)
  {
    if |prefix| <= |s| {
      assert s[..|prefix|][n] != prefix[n];
    }
  }

  /** The first `c` is at `i` when `s[i]` is `c` and no earlier character is. */
  lemma {:induction false} FirstIndexAt(s: string, c: char, i: nat)
    requires i < |s| && s[i] == c && c !in s[..i]
    ensures FirstIndex(s, c) == Some(i)
  {
    if i > 0 {
      assert s[0] == s[..i][0];
      assert s[1..][..i - 1] == s[1..i];
      assert forall j :: 0 <= j < i - 1 ==> s[1..i][j] == s[..i][j + 1];
      FirstIndexAt(s[1..], c, i - 1);
    }
  }

  /**
   * A line `key = …` does not start with `export `, unless the key is
   * `export` itself and whitespace follows it.
   */
  lemma NoExportInAssignment(key: string, before: string, rest: string)
    requires key != [] && NoSpace(key) && '=' !in key && AllSpace(before)
    requires before != [] ==> key != "export"
    ensures !StartsWith(key + before + "=" + rest, ExportPrefix)
  {
    var l := key + before + "=" + rest;
    assert l[|key| + |before|] == '=';
    if |key| > 6 {
      assert l[6] == key[6];
      NotPrefixed(l, ExportPrefix, 6);
    } else if |key| < 6 || before == [] {
      assert l[|key|] == if before == [] then '=' else before[0];
      NotPrefixed(l, ExportPrefix, |key|);
    } else {
      var k :| 0 <= k < 6 && key[k] != ExportPrefix[k];
      assert l[k] == key[k];
      NotPrefixed(l, ExportPrefix, k);
    }
  }

  /** A line `key = …` does not start with `set -gx `. */
  lemma NoFishInAssignment(key: string, before: string, rest: string)
    requires key != [] && NoSpace(key) && '=' !in key && AllSpace(before)
    ensures !StartsWith(key + before + "=" + rest, FishPrefix)
  {
    var l := key + before + "=" + rest;
    assert l[|key| + |before|] == '=';
    if |key| > 3 {
      assert l[3] == key[3];
      NotPrefixed(l, FishPrefix, 3);
    } else if |key| < 3 || before == [] {
      assert l[|key|] == if before == [] then '=' else before[0];
      NotPrefixed(l, FishPrefix, |key|);
    } else {
      assert l[4] == if |before| > 1 then before[1] else '=';
      NotPrefixed(l, FishPrefix, 4);
    }
  }

  /**
   * A statement made of a key, whitespace, a `=`, whitespace and a value is
   * cut at that `=`: the key and the value lose the whitespace around them.
   */
  lemma SpacedAssignment(key: string, before: string, after: string, value: string)
    requires key != [] && NoSpace(key) && '=' !in key && AllSpace(before) && AllSpace(after)
    requires before != [] ==> key != "export"
    requires Trimmed(value)
    ensures ParseStatement(Unprefixed(key + before + "=" + after + value)) == Entry(key, Unquote(value))
  {
    var l := key + before + "=" + after + value;
    var n := |key| + |before|;
    NoExportInAssignment(key, before, after + value);
    NoFishInAssignment(key, before, after + value);
    assert l == key + before + "=" + (after + value);
    assert l[..n] == key + before && l[n] == '=' && l[n + 1..] == after + value;
    assert '=' !in key + before;
    FirstIndexAt(l, '=', n);
    assert [] + key + before == key + before && after + value + [] == after + value;
    PaddedStrip([], key, before);
    PaddedStrip(after, value, []);
    AssignmentStatement(l, n, key, value);
  }

  /** A trimmed text with only whitespace around it is what `strip()` gives. */
  lemma PaddedStrip(pre: string, r: string, post: string)
    requires Trimmed(r) && AllSpace(pre) && AllSpace(post)
    ensures Strip(pre + r + post) == r
  {
    var s := pre + r + post;
    assert s[..|pre|] == pre && s[|pre|..|pre| + |r|] == r && s[|pre| + |r|..] == post;
    assert Padded(s, r, |pre|);
    StripOfUnique(s, r);
  }

  /**
   * A line made of a key, a `=` and a value, with any whitespace around the
   * `=`, is split at that `=`, so later `=` stay in the value, and the value
   * loses one pair of surrounding quotes. The one exception is the key
   * `export` followed by whitespace, whose line starts with `export `.
   */
  lemma AssignmentLine(key: string, before: string, after: string, value: string)
    requires key != [] && NoSpace(key) && key[0] != '#' && '=' !in key
    requires AllSpace(before) && AllSpace(after)
    requires before != [] ==> key != "export"
    requires Trimmed(value)
    ensures ParseLine(key + before + "=" + after + value) == Entry(key, Unquote(value))
  {
    var kept := if value == [] then [] else after;
    var t := key + before + "=" + kept + value;
    StrippedAssignment(key, before, after, value);
    SpacedAssignment(key, before, kept, value);
    assert t[0] == key[0];
    StrippedLine(key + before + "=" + after + value, t);
  }

  /** `strip()` of such a line removes only the whitespace after the `=` when nothing follows it. */
  lemma StrippedAssignment(key: string, before: string, after: string, value: string)
    requires key != [] && NoSpace(key) && AllSpace(after) && Trimmed(value)
    ensures Strip(key + before + "=" + after + value)
         == key + before + "=" + (if value == [] then [] else after) + value
  {
    var raw := key + before + "=" + after + value;
    if value != [] {
      assert raw[0] == key[0] && raw[|raw| - 1] == value[|value| - 1];
      StripOfTrimmed(raw);
    } else {
      var t := key + before + "=";
      assert t[0] == key[0] && t[|t| - 1] == '=';
      assert [] + t + after == raw && t + [] + [] == t;
      PaddedStrip([], t, after);
    }
  }

  /** A line whose stripped text is a non-comment `t` is parsed as `t`'s statement. */
  lemma StrippedLine(raw: string, t: string)
    requires Strip(raw) == t && t != [] && t[0] != '#'
    ensures ParseLine(raw) == ParseStatement(Unprefixed(t))
  {
  }

  /** A trimmed line that is neither a comment nor an `export` line is parsed as it stands. */
  lemma StatementLine(raw: string)
    requires Strip(raw) == raw && raw != [] && raw[0] != '#' && !StartsWith(raw, ExportPrefix)
    ensures ParseLine(raw) == ParseStatement(raw)
  {
    assert Unprefixed(raw) == raw;
  }

  /** A statement other than `set -gx` is cut at its first `=`, both sides trimmed. */
  lemma AssignmentStatement(l: string, n: nat, key: string, value: string)
    requires !StartsWith(l, FishPrefix) && FirstIndex(l, '=') == Some(n)
    requires Strip(l[..n]) == key && Strip(l[n + 1..]) == value
    ensures ParseStatement(l) == Entry(key, Unquote(value))
  {
  }

  /** Without a `=`, only the `set -gx` form can add an entry. */
  lemma NoAssignmentWithoutEquals(raw: string)
    requires '=' !in raw
    ensures ParseLine(raw).Entry? ==> StartsWith(Unprefixed(Strip(raw)), FishPrefix)
  {
    StripKeepsOut(raw, '=');
    var t := Strip(raw);
    var l := Unprefixed(t);
    assert '=' !in l by {
      forall i | 0 <= i < |l| ensures l[i] != '=' {
        assert l[i] == t[|t| - |l| + i];
      }
    }
    NoEqualsStatement(l);
  }

  lemma NoEqualsStatement(l: string)
    requires '=' !in l
    ensures ParseStatement(l).Entry? ==> StartsWith(l, FishPrefix)
  {
    assert FirstIndex(l, '=') == None;
  }

  // ---------------------------------------------------------------------
  // Properties of the file parser

  /** The entry sets `key`. */
  predicate Sets(e: LineEntry, key: string) {
    e.Entry? && e.key == key
  }

  /** Line `line` defines `key`. */
  predicate Defines(line: string, key: string) {
    Sets(ParseLine(line), key)
  }

  /** The value a key ends up with is the one of the last entry setting it. */
  lemma {:induction false} LastEntryWins(es: seq<LineEntry>, i: nat, key: string, value: string)
    requires i < |es| && es[i] == Entry(key, value)
    requires forall j :: i < j < |es| ==> !Sets(es[j], key)
    ensures key in Collect(es) && Collect(es)[key] == value
  {
    var init := es[..|es| - 1];
    if i < |es| - 1 {
      forall j | i < j < |init| ensures !Sets(init[j], key) {
        assert init[j] == es[j];
      }
      assert init[i] == es[i];
      LastEntryWins(init, i, key, value);
    }
  }

  /** The dictionary holds exactly the keys some entry sets. */
  lemma {:induction false} CollectedKeys(es: seq<LineEntry>, key: string)
    ensures key in Collect(es) <==> exists j :: 0 <= j < |es| && Sets(es[j], key)
  {
    if es != [] {
      var init := es[..|es| - 1];
      CollectedKeys(init, key);
      if exists j :: 0 <= j < |init| && Sets(init[j], key) {
        var j :| 0 <= j < |init| && Sets(init[j], key);
        assert es[j] == init[j];
      }
      if exists j :: 0 <= j < |es| && Sets(es[j], key) {
        var j :| 0 <= j < |es| && Sets(es[j], key);
        if j < |init| { assert init[j] == es[j]; }
      }
    }
  }

  /** A key repeated in a file takes the value of its last occurrence. */
  lemma LastOccurrenceWins(lines: seq<string>, i: nat, key: string, value: string)
    requires i < |lines| && ParseLine(lines[i]) == Entry(key, value)
    requires forall j :: i < j < |lines| ==> !Defines(lines[j], key)
    ensures key in ParseLines(lines) && ParseLines(lines)[key] == value
  {
    var es := Entries(lines);
    forall j | i < j < |es| ensures !Sets(es[j], key) {
      assert !Defines(lines[j], key);
    }
    LastEntryWins(es, i, key, value);
  }

  /** The file defines exactly the keys some line defines. */
  lemma ParsedKeys(lines: seq<string>, key: string)
    ensures key in ParseLines(lines) <==> exists j :: 0 <= j < |lines| && Defines(lines[j], key)
  {
    var es := Entries(lines);
    CollectedKeys(es, key);
    if exists j :: 0 <= j < |es| && Sets(es[j], key) {
      var j :| 0 <= j < |es| && Sets(es[j], key);
      assert Defines(lines[j], key);
    }
    if exists j :: 0 <= j < |lines| && Defines(lines[j], key) {
      var j :| 0 <= j < |lines| && Defines(lines[j], key);
      assert Sets(es[j], key);
    }
  }

  // ---------------------------------------------------------------------
  // The three-file load

  /** One file applied over an environment: a missing file changes nothing. */
  function Overlay(environ: map<string, string>, file: Option<seq<string>>): map<string, string> {
    if file.Some? then environ + ParseLines(file.value) else environ
  }

  /** What one file contributes: nothing when it does not exist. */
  function FileVars(file: Option<seq<string>>): map<string, string> {
    if file.Some? then ParseLines(file.value) else map[]
  }

  /** The environment after the three updates of lines 74-95. */
  function LayeredEnvironment(environ: map<string, string>, core: Option<seq<string>>,
                              service: Option<seq<string>>, secrets: Option<seq<string>>): map<string, string> {
    Overlay(Overlay(Overlay(environ, core), service), secrets)
  }

  /**
   * Every variable of the process and every key of the three files is set
   * afterwards, and each takes its value from the last place defining it:
   * the secrets file, then the service file, then the core file, then the
   * environment the process started with.
   */
  lemma LayeredPrecedence(environ: map<string, string>, core: Option<seq<string>>,
                          service: Option<seq<string>>, secrets: Option<seq<string>>)
    ensures var env := LayeredEnvironment(environ, core, service, secrets);
      && env.Keys == environ.Keys + FileVars(core).Keys + FileVars(service).Keys + FileVars(secrets).Keys
      && forall k :: k in env ==>
        (env[k] == if k in FileVars(secrets) then FileVars(secrets)[k]
                   else if k in FileVars(service) then FileVars(service)[k]
                   else if k in FileVars(core) then FileVars(core)[k]
                   else environ[k])
  {
  }

  /** `loaded_count`: the sizes of the three dictionaries added up. */
  function LoadedCount(core: Option<seq<string>>, service: Option<seq<string>>, secrets: Option<seq<string>>): nat {
    |FileVars(core)| + |FileVars(service)| + |FileVars(secrets)|
  }

  /** The count is never below the number of distinct keys loaded. */
  lemma LoadedCountBound(core: Option<seq<string>>, service: Option<seq<string>>, secrets: Option<seq<string>>)
    ensures |FileVars(core).Keys + FileVars(service).Keys + FileVars(secrets).Keys| <= LoadedCount(core, service, secrets)
  {
    var a, b, c := FileVars(core).Keys, FileVars(service).Keys, FileVars(secrets).Keys;
    assert |a + b| <= |a| + |b| by { UnionSize(a, b); }
    UnionSize(a + b, c);
  }

  lemma UnionSize<T>(a: set<T>, b: set<T>)
    ensures |a + b| <= |a| + |b|
  {
    assert |a + b| == |a| + |b - a|;
    assert b - a <= b;
  }

  /** The same key in two files counts twice, yet only one variable is set, to the later file's value. */
  lemma RepeatedKeyCountedTwice(first: string, second: string, key: string, v1: string, v2: string)
    requires ParseLine(first) == Entry(key, v1) && ParseLine(second) == Entry(key, v2)
    ensures LoadedCount(Some([first]), Some([second]), None) == 2
    ensures LayeredEnvironment(map[], Some([first]), Some([second]), None) == map[key := v2]
  {
    SingleLine(first);
    SingleLine(second);
    Overridden(key, v1, v2);
  }

  lemma Overridden(key: string, v1: string, v2: string)
    ensures map[] + map[key := v1] + map[key := v2] == map[key := v2]
    ensures |map[key := v1]| == 1
  {
    var m: map<string, string> := map[];
    assert m[key := v1].Keys == {key};
  }

  /** A file of one line holds what that line contributes. */
  lemma SingleLine(line: string)
    ensures ParseLines([line]) == Apply(map[], ParseLine(line))
  {
    AppendLine([], line);
    assert [] + [line] == [line];
  }

  /** The process's `os.environ`. */
  class ProcessEnvironment {
    var vars: map<string, string>

    constructor (inherited: map<string, string>)
      ensures vars == inherited
    {
      vars := inherited;
    }

    /** `os.environ.update(m)` */
    method Update(m: map<string, string>)
      modifies this
      ensures vars == old(vars) + m
    {
      vars := vars + m;
    }
  }

  /** `load_thinkube_environment`: `.thinkube_env`, then `service-env.sh`, then `.secrets.env`. */
  method LoadThinkubeEnvironment(environ: ProcessEnvironment, core: Option<seq<string>>,
                                 service: Option<seq<string>>, secrets: Option<seq<string>>)
    returns (loadedCount: nat)
    modifies environ
    ensures environ.vars == LayeredEnvironment(old(environ.vars), core, service, secrets)
    ensures loadedCount == LoadedCount(core, service, secrets)
  {
    loadedCount := 0;
    loadedCount := LoadFile(environ, core, loadedCount);
    loadedCount := LoadFile(environ, service, loadedCount);
    loadedCount := LoadFile(environ, secrets, loadedCount);
  }

  /** One step of lines 74-95: an existing file is parsed, applied and counted. */
  method LoadFile(environ: ProcessEnvironment, file: Option<seq<string>>, count: nat)
    returns (loadedCount: nat)
    modifies environ
    ensures environ.vars == Overlay(old(environ.vars), file)
    ensures loadedCount == count + |FileVars(file)|
  {
    loadedCount := count;
    if file.Some? {
      var envVars := ParseEnvFile(file);
      environ.Update(envVars);
      loadedCount := loadedCount + |envVars|;
    }
  }
}
