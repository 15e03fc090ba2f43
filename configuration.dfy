/** Configuration rules: reading a `.env` file into the process environment without
    overwriting what is already set, choosing the configuration class from the environment
    name, and the numeric and production checks on a configuration's settings.
    Settings arrive as values: how the classes read them from the environment, and the
    filesystem probes of the validation, are parameters. */
module Configuration {
  import opened Common

  // ---------------------------------------------------------------------------------------
  // str.strip()

  /** The characters str.isspace() accepts, which str.strip() removes. */
  predicate IsSpace(c: char)
  {
    || c == ' ' || c == '\t' || c == '\n' || c == '\r' || c == '\U{0B}' || c == '\U{0C}'
    || ('\U{1C}' <= c <= '\U{1F}') || c == '\U{85}' || c == '\U{A0}' || c == '\U{1680}'
    || ('\U{2000}' <= c <= '\U{200A}') || c == '\U{2028}' || c == '\U{2029}' || c == '\U{202F}'
    || c == '\U{205F}' || c == '\U{3000}'
  }

  predicate AllSpace(s: string)
  {
    forall i :: 0 <= i < |s| ==> IsSpace(s[i])
  }

  /** Neither end of s is white space. */
  predicate Trimmed(s: string)
  {
    s == [] || (!IsSpace(s[0]) && !IsSpace(s[|s| - 1]))
  }

  /** s without its leading white space. */
  function StripStart(s: string): (r: string)
    ensures |r| <= |s| && r == s[|s| - |r|..]
    ensures r == [] || !IsSpace(r[0])
  {
    if s != [] && IsSpace(s[0]) then StripStart(s[1..]) else s
  }

  /** s without its trailing white space. */
  function StripEnd(s: string): (r: string)
    ensures |r| <= |s| && r == s[..|r|]
    ensures r == [] || !IsSpace(r[|r| - 1])
  {
    if s != [] && IsSpace(s[|s| - 1]) then StripEnd(s[..|s| - 1]) else s
  }

  /** str.strip(): s is some white space, then the result, then some white space. */
  function Strip(s: string): (r: string)
    ensures Trimmed(r)
    ensures |r| <= |s|
  {
    StripEnd(StripStart(s))
  }

  /** What stripping removes is white space at either end. */
  lemma {:induction false} StripRemovesSpace(s: string)
    ensures AllSpace(s[..|s| - |StripStart(s)|])
    ensures AllSpace(StripStart(s)[|StripEnd(StripStart(s))|..])
  {
    LeadingSpace(s);
    TrailingSpace(StripStart(s));
  }

  lemma {:induction false} LeadingSpace(s: string)
    ensures AllSpace(s[..|s| - |StripStart(s)|])
  {
    if s != [] && IsSpace(s[0]) {
      LeadingSpace(s[1..]);
      assert s[..|s| - |StripStart(s)|] == [s[0]] + s[1..][..|s[1..]| - |StripStart(s[1..])|];
    }
  }

  lemma {:induction false} TrailingSpace(s: string)
    ensures AllSpace(s[|StripEnd(s)|..])
  {
    if s != [] && IsSpace(s[|s| - 1]) {
      TrailingSpace(s[..|s| - 1]);
      assert s[|StripEnd(s)|..] == s[..|s| - 1][|StripEnd(s[..|s| - 1])|..] + [s[|s| - 1]];
    }
  }

  /** StripEnd keeps every character up to the last one that is not white space. */
  lemma {:induction false} StripEndKeepsNonSpace(s: string, k: nat)
    requires k < |s| && !IsSpace(s[k])
    ensures |StripEnd(s)| > k
  {
    if IsSpace(s[|s| - 1]) {
      StripEndKeepsNonSpace(s[..|s| - 1], k);
    }
  }

  /** Stripping only removes characters. */
  lemma StripKeepsChars(s: string, c: char)
    ensures c in Strip(s) ==> c in s
  {
    var t := StripStart(s);
    assert t == s[|s| - |t|..];
    if c in Strip(s) {
      var k :| 0 <= k < |Strip(s)| && Strip(s)[k] == c;
      assert t[k] == c;
      assert s[|s| - |t| + k] == c;
    }
  }

  lemma {:induction false} StripStartOfPadded(a: string, rest: string)
    requires AllSpace(a) && (rest == [] || !IsSpace(rest[0]))
    ensures StripStart(a + rest) == rest
  {
    if a != [] {
      assert (a + rest)[1..] == a[1..] + rest;
      StripStartOfPadded(a[1..], rest);
    }
  }

  lemma {:induction false} StripEndOfPadded(rest: string, b: string)
    requires AllSpace(b) && (rest == [] || !IsSpace(rest[|rest| - 1]))
    ensures StripEnd(rest + b) == rest
  {
    if b != [] {
      assert (rest + b)[..|rest + b| - 1] == rest + b[..|b| - 1];
      StripEndOfPadded(rest, b[..|b| - 1]);
    }
  }

  /** Stripping recovers a trimmed string from any white-space padding around it. */
  lemma StripPadded(a: string, core: string, b: string)
    requires AllSpace(a) && AllSpace(b) && Trimmed(core)
    ensures Strip(a + core + b) == core
  {
    if core == [] {
      assert a + core + b == a + b;
      StripStartOfPadded(a + b, []);
      assert a + b + [] == a + b;
    } else {
      assert a + core + b == a + (core + b);
      StripStartOfPadded(a, core + b);
      StripEndOfPadded(core, b);
    }
  }

  lemma StripTrailing(core: string, b: string)
    requires AllSpace(b) && Trimmed(core)
    ensures Strip(core + b) == core
  {
    if core == [] {
      assert core + b == b + [];
      StripStartOfPadded(b, []);
    } else {
      assert (core + b)[0] == core[0];
      assert StripStart(core + b) == core + b;
      StripEndOfPadded(core, b);
    }
  }

  lemma StripIdempotent(s: string)
    ensures Strip(Strip(s)) == Strip(s)
  {
    StripPadded([], Strip(s), []);
    assert [] + Strip(s) + [] == Strip(s);
  }

  // ---------------------------------------------------------------------------------------
  // .env lines

  /** A stripped line that is skipped: blank, a comment, or without '='. */
  predicate Ignored(line: string)
  {
    line == [] || line[0] == '#' || '=' !in line
  }

  /** The position of the first c in s. */
  function IndexOf(s: string, c: char): (i: nat)
    requires c in s
    ensures i < |s| && s[i] == c && c !in s[..i]
  {
    if s[0] == c then 0
    else
      assert s == [s[0]] + s[1..];
      IndexOf(s[1..], c) + 1
  }

  /** A line of the file as a key and a value: split at the first '=', both parts stripped. */
  function ParseLine(raw: string): (r: Option<(string, string)>)
    ensures r.None? <==> Ignored(Strip(raw))
    ensures r.Some? ==> '=' !in r.value.0 && Trimmed(r.value.0) && Trimmed(r.value.1)
  {
    var line := Strip(raw);
    if Ignored(line) then None
    else
      var i := IndexOf(line, '=');
      StripKeepsChars(line[..i], '=');
      Some((Strip(line[..i]), Strip(line[i + 1..])))
  }

  /** The file format: `key = value` with any white space around the key, the '=' and the
      value is read back as (key, value); the value may itself contain '='. */
  lemma ParseLineRoundTrip(lead: string, key: string, gap1: string, gap2: string, value: string, trail: string)
    requires AllSpace(lead) && AllSpace(gap1) && AllSpace(gap2) && AllSpace(trail)
    requires key != [] && Trimmed(key) && key[0] != '#' && '=' !in key
    requires Trimmed(value)
    ensures ParseLine(lead + key + gap1 + "=" + gap2 + value + trail) == Some((key, value))
  {
    var rest := if value == [] then [] else gap2 + value;
    var line := key + gap1 + "=" + rest;
    StrippedLine(lead, key, gap1, gap2, value, trail);
    SplitAtFirstEquals(key, gap1, rest);
    StripTrailing(key, gap1);
    assert line[0] == key[0];
    assert !Ignored(line);
    ParseAt(lead + key + gap1 + "=" + gap2 + value + trail, line, |key + gap1|);
  }

  /** The stripped form of a padded `key = value` line, and the stripped value. */
  lemma StrippedLine(lead: string, key: string, gap1: string, gap2: string, value: string, trail: string)
    requires AllSpace(lead) && AllSpace(gap2) && AllSpace(trail)
    requires key != [] && Trimmed(key) && Trimmed(value)
    ensures var rest := if value == [] then [] else gap2 + value;
      && Strip(lead + key + gap1 + "=" + gap2 + value + trail) == key + gap1 + "=" + rest
      && Strip(rest) == value
  {
    var raw := lead + key + gap1 + "=" + gap2 + value + trail;
    var rest := if value == [] then [] else gap2 + value;
    var line := key + gap1 + "=" + rest;
    if value == [] {
      assert raw == lead + line + (gap2 + trail);
      StripPadded(lead, line, gap2 + trail);
      StripPadded([], [], []);
    } else {
      assert raw == lead + line + trail;
      StripPadded(lead, line, trail);
      StripPadded(gap2, value, []);
      assert gap2 + value + [] == rest;
    }
  }

  /** In key + gap + "=" + rest, the first '=' is the one after the gap. */
  lemma SplitAtFirstEquals(key: string, gap: string, rest: string)
    requires '=' !in key && AllSpace(gap)
    ensures '=' in key + gap + "=" + rest
    ensures var line := key + gap + "=" + rest;
      var i := IndexOf(line, '=');
      i == |key + gap| && line[..i] == key + gap && line[i + 1..] == rest
  {
    var line := key + gap + "=" + rest;
    var n := |key + gap|;
    assert line[n] == '=';
    assert line[..n] == key + gap;
    assert line[n + 1..] == rest;
    assert '=' !in key + gap;
  }

  /** Comment lines and blank lines are skipped. */
  lemma CommentsAndBlanksIgnored(lead: string, text: string)
    requires AllSpace(lead)
    ensures ParseLine(lead) == None
    ensures ParseLine(lead + "#" + text) == None
  {
    BlankIgnored(lead);
    CommentIgnored(lead, text);
  }

  lemma BlankIgnored(lead: string)
    requires AllSpace(lead)
    ensures Strip(lead) == []
  {
    assert lead == lead + [];
    StripStartOfPadded(lead, []);
  }

  lemma CommentIgnored(lead: string, text: string)
    requires AllSpace(lead)
    ensures Strip(lead + "#" + text) != [] && Strip(lead + "#" + text)[0] == '#'
  {
    assert lead + "#" + text == lead + ("#" + text);
    StripStartOfPadded(lead, "#" + text);
    StripEndKeepsNonSpace("#" + text, 0);
  }

  // ---------------------------------------------------------------------------------------
  // Loading into the environment

  /** os.environ.setdefault(key, value) */
  function WithDefault(env: map<string, string>, key: string, value: string): (r: map<string, string>)
    ensures key in r && r[key] == (if key in env then env[key] else value)
    ensures r.Keys == env.Keys + {key}
    ensures forall k :: k in env ==> k in r && r[k] == env[k]
  {
    if key in env then env else env[key := value]
  }

  /** A parsed line: the key and value it sets, or None when it is skipped. */
  type Entry = Option<(string, string)>

  /** The entries of the lines, in file order. */
  function Entries(lines: seq<string>): (r: seq<Entry>)
    ensures |r| == |lines| && forall i :: 0 <= i < |lines| ==> r[i] == ParseLine(lines[i])
  {
    if lines == [] then [] else Entries(lines[..|lines| - 1]) + [ParseLine(lines[|lines| - 1])]
  }

  /** The environment after each entry in turn has been given to setdefault. */
  function ApplyEntries(env: map<string, string>, entries: seq<Entry>): (r: map<string, string>)
    ensures env.Keys <= r.Keys
  {
    if entries == [] then env
    else
      var before := ApplyEntries(env, entries[..|entries| - 1]);
      match entries[|entries| - 1]
      case None => before
      case Some((key, value)) => WithDefault(before, key, value)
  }

  /** The environment after the lines have been read in order. */
  function ApplyLines(env: map<string, string>, lines: seq<string>): (r: map<string, string>)
    ensures env.Keys <= r.Keys
  {
    ApplyEntries(env, Entries(lines))
  }

  /** An entry sets key. */
  predicate Sets(e: Entry, key: string)
  {
    e.Some? && e.value.0 == key
  }

  /** A variable that is already set keeps its value. */
  lemma {:induction false} NoOverwrite(env: map<string, string>, entries: seq<Entry>, k: string)
    requires k in env
    ensures k in ApplyEntries(env, entries) && ApplyEntries(env, entries)[k] == env[k]
  {
    if entries != [] {
      NoOverwrite(env, entries[..|entries| - 1], k);
    }
  }

  /** Exactly the keys already set and the keys the entries set are set afterwards. */
  lemma {:induction false} LoadedKeys(env: map<string, string>, entries: seq<Entry>, k: string)
    ensures k in ApplyEntries(env, entries) <==> k in env || exists i :: 0 <= i < |entries| && Sets(entries[i], k)
  {
    if entries != [] {
      var init := entries[..|entries| - 1];
      LoadedKeys(env, init, k);
      if exists i :: 0 <= i < |init| && Sets(init[i], k) {
        var i :| 0 <= i < |init| && Sets(init[i], k);
        assert entries[i] == init[i];
      }
      if exists i :: 0 <= i < |entries| && Sets(entries[i], k) {
        var i :| 0 <= i < |entries| && Sets(entries[i], k);
        if i < |init| {
          assert init[i] == entries[i];
        }
      }
    }
  }

  /** For a key the environment does not hold, the first entry that sets it decides its value. */
  lemma {:induction false} FirstOccurrenceWins(env: map<string, string>, entries: seq<Entry>, i: nat, key: string, value: string)
    requires i < |entries| && entries[i] == Some((key, value))
    requires key !in env
    requires forall j :: 0 <= j < i ==> !Sets(entries[j], key)
    ensures key in ApplyEntries(env, entries) && ApplyEntries(env, entries)[key] == value
  {
    var init := entries[..|entries| - 1];
    if i == |entries| - 1 {
      LoadedKeys(env, init, key);
      assert forall j :: 0 <= j < |init| ==> init[j] == entries[j];
    } else {
      assert init[i] == entries[i];
      assert forall j :: 0 <= j < i ==> init[j] == entries[j];
      FirstOccurrenceWins(env, init, i, key, value);
    }
  }

  /** Reading a file never changes a variable that is already set. */
  lemma FileKeepsSetVariables(env: map<string, string>, lines: seq<string>, k: string)
    requires k in env
    ensures k in ApplyLines(env, lines) && ApplyLines(env, lines)[k] == env[k]
  {
    NoOverwrite(env, Entries(lines), k);
  }

  /** Reading a file adds exactly the keys its lines set. */
  lemma FileKeys(env: map<string, string>, lines: seq<string>, k: string)
    ensures k in ApplyLines(env, lines) <==>
      k in env || exists i :: 0 <= i < |lines| && Sets(ParseLine(lines[i]), k)
  {
    var entries := Entries(lines);
    LoadedKeys(env, entries, k);
    SameSetters(lines, entries, k);
  }

  lemma SameSetters(lines: seq<string>, entries: seq<Entry>, k: string)
    requires |entries| == |lines| && forall i :: 0 <= i < |lines| ==> entries[i] == ParseLine(lines[i])
    ensures (exists i :: 0 <= i < |entries| && Sets(entries[i], k)) <==>
      (exists i :: 0 <= i < |lines| && Sets(ParseLine(lines[i]), k))
  {
  }

  /** For a variable that is not set, the first line of the file that sets it decides it. */
  lemma FileFirstLineWins(env: map<string, string>, lines: seq<string>, i: nat, key: string, value: string)
    requires i < |lines| && ParseLine(lines[i]) == Some((key, value)) && key !in env
    requires forall j :: 0 <= j < i ==> !Sets(ParseLine(lines[j]), key)
    ensures key in ApplyLines(env, lines) && ApplyLines(env, lines)[key] == value
  {
    FirstOccurrenceWins(env, Entries(lines), i, key, value);
  }

  /** A one-line file `key=value` sets key unless it is set already. */
  lemma LoadOneLine(env: map<string, string>, key: string, value: string)
    requires key != [] && Trimmed(key) && key[0] != '#' && '=' !in key && Trimmed(value)
    ensures ApplyLines(env, [key + "=" + value]) == WithDefault(env, key, value)
  {
    ParseKeyValue(key, value);
    OneEntry(key + "=" + value);
    ApplyOneEntry(env, key, value);
  }

  lemma OneEntry(line: string)
    ensures Entries([line]) == [ParseLine(line)]
  {
    assert [line][..0] == [];
  }

  lemma ApplyOneEntry(env: map<string, string>, key: string, value: string)
    ensures ApplyEntries(env, [Some((key, value))]) == WithDefault(env, key, value)
  {
    assert [Some((key, value))][..0] == [];
  }

  /** `key=value` with nothing around the '=' reads back as (key, value). */
  lemma ParseKeyValue(key: string, value: string)
    requires key != [] && Trimmed(key) && key[0] != '#' && '=' !in key && Trimmed(value)
    ensures ParseLine(key + "=" + value) == Some((key, value))
  {
    KeyValueStripped(key, value);
    KeyValueRead(key, value);
    KeyPartStripped(key, value);
    ValuePartStripped(key, value);
    KeyValueIndex(key, value);
    ParseAt(key + "=" + value, key + "=" + value, |key|);
  }

  lemma KeyValueStripped(key: string, value: string)
    requires key != [] && Trimmed(key) && Trimmed(value)
    ensures Strip(key + "=" + value) == key + "=" + value
  {
    KeyValueSlices(key, value);
    StripOfTrimmed(key + "=" + value);
  }

  lemma KeyValueRead(key: string, value: string)
    requires key != [] && key[0] != '#'
    ensures !Ignored(key + "=" + value)
  {
    KeyValueSlices(key, value);
  }

  lemma KeyPartStripped(key: string, value: string)
    requires key != [] && Trimmed(key)
    ensures Strip((key + "=" + value)[..|key|]) == key
  {
    KeyValueSlices(key, value);
    StripOfTrimmed(key);
  }

  lemma ValuePartStripped(key: string, value: string)
    requires key != [] && Trimmed(value)
    ensures Strip((key + "=" + value)[|key| + 1..]) == value
  {
    KeyValueSlices(key, value);
    StripOfTrimmed(value);
  }

  lemma KeyValueSlices(key: string, value: string)
    requires key != []
    ensures var line := key + "=" + value;
      && line[0] == key[0] && line[|key|] == '=' && line[|line| - 1] == (if value == [] then '=' else value[|value| - 1])
      && line[..|key|] == key && line[|key| + 1..] == value
  {
  }

  lemma KeyValueIndex(key: string, value: string)
    requires '=' !in key
    ensures IndexOf(key + "=" + value, '=') == |key|
  {
    var line := key + "=" + value;
    assert line[..|key|] == key;
    FirstIndex(line, '=', |key|);
  }

  /** The first c in s is at n when s[n] is c and no earlier character is. */
  lemma FirstIndex(s: string, c: char, n: nat)
    requires n < |s| && s[n] == c && c !in s[..n]
    ensures IndexOf(s, c) == n
  {
  }

  /** ParseLine on a line whose stripped form and first '=' are known. */
  lemma ParseAt(raw: string, line: string, n: nat)
    requires Strip(raw) == line && !Ignored(line) && IndexOf(line, '=') == n
    ensures ParseLine(raw) == Some((Strip(line[..n]), Strip(line[n + 1..])))
  {
  }

  lemma StripOfTrimmed(s: string)
    requires Trimmed(s)
    ensures Strip(s) == s
  {
  }

  /** Reading one more line: setdefault with its key and value, or nothing when it is skipped. */
  lemma ApplyNextLine(env: map<string, string>, lines: seq<string>, i: nat)
    requires i < |lines|
    ensures ParseLine(lines[i]).None? ==> ApplyLines(env, lines[..i + 1]) == ApplyLines(env, lines[..i])
    ensures ParseLine(lines[i]).Some? ==> (ApplyLines(env, lines[..i + 1])
      == WithDefault(ApplyLines(env, lines[..i]), ParseLine(lines[i]).value.0, ParseLine(lines[i]).value.1))
  {
    EntriesStep(lines, i);
    ApplyEntriesStep(env, Entries(lines[..i]), ParseLine(lines[i]));
  }

  lemma EntriesStep(lines: seq<string>, i: nat)
    requires i < |lines|
    ensures Entries(lines[..i + 1]) == Entries(lines[..i]) + [ParseLine(lines[i])]
  {
    assert lines[..i + 1][..i] == lines[..i];
  }

  lemma ApplyEntriesStep(env: map<string, string>, entries: seq<Entry>, e: Entry)
    ensures e.None? ==> ApplyEntries(env, entries + [e]) == ApplyEntries(env, entries)
    ensures e.Some? ==> ApplyEntries(env, entries + [e]) == WithDefault(ApplyEntries(env, entries), e.value.0, e.value.1)
  {
    assert (entries + [e])[..|entries|] == entries;
  }

  /** The process environment, which load_env_file updates in place. */
  class Environ {
    var vars: map<string, string>

    constructor(initial: map<string, string>)
      ensures vars == initial
    {
      vars := initial;
    }

    /** os.environ.setdefault: sets key only when it is unset; answers its value. */
    method SetDefault(key: string, value: string) returns (current: string)
      modifies this
      ensures vars == WithDefault(old(vars), key, value)
      ensures key in vars && current == vars[key]
    {
      if key !in vars {
        vars := vars[key := value];
      }
      current := vars[key];
    }

    /** load_env_file: nothing when the file does not exist, otherwise each line in order. */
    method LoadEnvFile(file: Option<seq<string>>)
      modifies this
      ensures file.None? ==> vars == old(vars)
      ensures file.Some? ==> vars == ApplyLines(old(vars), file.value)
    {
      if file.None? {
        return;
      }
      var lines := file.value;
      var i := 0;
      while i < |lines|
        invariant 0 <= i <= |lines|
        invariant vars == ApplyLines(old(vars), lines[..i])
      {
        var parsed := ParseLine(lines[i]);
        ApplyNextLine(old(vars), lines, i);
        if parsed.Some? {
          var _ := SetDefault(parsed.value.0, parsed.value.1);
        }
        i := i + 1;
      }
      assert lines[..i] == lines;
    }
  }

  // ---------------------------------------------------------------------------------------
  // The configuration classes

  datatype ConfigKind = Development | Production | Testing

  /** get_config: the name, or FLASK_ENV when none is given (default 'development'), looked up
      in the class table; an unknown name gives the development class. */
  function GetConfig(env: Option<string>, environ: map<string, string>): (r: ConfigKind)
    ensures var name := if env.Some? then env.value else if "FLASK_ENV" in environ then environ["FLASK_ENV"] else "development";
      && (r == Production <==> name == "production")
      && (r == Testing <==> name == "testing")
  {
    var name := match env
      case Some(n) => n
      case None => if "FLASK_ENV" in environ then environ["FLASK_ENV"] else "development";
    if name == "production" then Production
    else if name == "testing" then Testing
    else Development
  }

  lemma GetConfigDefaults(environ: map<string, string>)
    ensures GetConfig(None, map[]) == Development
    ensures GetConfig(Some("staging"), environ) == Development
    ensures GetConfig(Some("production"), environ) == Production
    ensures "FLASK_ENV" in environ && environ["FLASK_ENV"] == "testing" ==> GetConfig(None, environ) == Testing
  {
  }

  /** The settings the validation reads. The secret key is None when unset. */
  datatype Settings = Settings(
    secretKey: Option<string>,
    debug: bool,
    modelsDir: string,
    minCreditScore: int,
    maxCreditScore: int,
    confidenceThreshold: real)

  const DevSecretKey: string := "dev-secret-key-change-in-production"

  /** A class's settings from the base class's: development forces DEBUG on, production forces
      it off and takes SECRET_KEY from the environment with no default, testing fixes its own
      secret key. */
  function SettingsOf(kind: ConfigKind, base: Settings, secretKeyVar: Option<string>): (s: Settings)
    ensures kind == Development ==> s.debug && s.secretKey == base.secretKey
    ensures kind == Production ==> !s.debug && s.secretKey == secretKeyVar
    ensures kind == Testing ==> s.secretKey == Some("test-secret-key") && s.debug == base.debug
    ensures s.modelsDir == base.modelsDir && s.minCreditScore == base.minCreditScore
    ensures s.maxCreditScore == base.maxCreditScore && s.confidenceThreshold == base.confidenceThreshold
  {
    match kind
    case Development => base.(debug := true)
    case Production => base.(debug := false, secretKey := secretKeyVar)
    case Testing => base.(secretKey := Some("test-secret-key"))
  }

  /** The error list of validate_config, in the order the checks run. dbDirAvailable says the
      database directory exists or could be created, modelsDirExists that the models
      directory exists. */
  function ConfigErrors(s: Settings, dbDirAvailable: bool, modelsDirExists: bool): (errors: seq<string>)
    ensures |errors| <= 4
    ensures "Invalid credit score range" in errors
      <==> !(300 <= s.minCreditScore <= s.maxCreditScore <= 850)
    ensures "Confidence threshold must be between 0 and 1" in errors
      <==> (s.confidenceThreshold < 0.0 || s.confidenceThreshold > 1.0)
    ensures errors == [] <==>
      dbDirAvailable && modelsDirExists && 300 <= s.minCreditScore <= s.maxCreditScore <= 850
      && 0.0 <= s.confidenceThreshold <= 1.0
  {
    var db := if dbDirAvailable then [] else ["Cannot create database directory"];
    var missing := "Models directory not found: " + s.modelsDir;
    var models := if modelsDirExists then [] else [missing];
    var range := if 300 <= s.minCreditScore <= s.maxCreditScore <= 850 then [] else ["Invalid credit score range"];
    var threshold :=
      if s.confidenceThreshold < 0.0 || s.confidenceThreshold > 1.0
      then ["Confidence threshold must be between 0 and 1"] else [];
    assert "Cannot create database directory" != "Invalid credit score range";
    assert "Cannot create database directory" != "Confidence threshold must be between 0 and 1";
    assert "Invalid credit score range" != "Confidence threshold must be between 0 and 1";
    assert missing[0] == 'M';
    assert missing != "Invalid credit score range" && missing != "Confidence threshold must be between 0 and 1";
    db + models + range + threshold
  }

  /** validate_config: true exactly when the error list is empty. */
  function ValidateConfig(s: Settings, dbDirAvailable: bool, modelsDirExists: bool): (ok: bool)
    ensures ok <==> dbDirAvailable && modelsDirExists
                    && 300 <= s.minCreditScore <= s.maxCreditScore <= 850
                    && 0.0 <= s.confidenceThreshold <= 1.0
  {
    |ConfigErrors(s, dbDirAvailable, modelsDirExists)| == 0
  }

  /** validate_production_config: an unset, empty or development secret key fails, DEBUG fails,
      and otherwise validate_config decides. */
  function ValidateProductionConfig(s: Settings, dbDirAvailable: bool, modelsDirExists: bool): (ok: bool)
    ensures ok <==>
      && s.secretKey.Some? && s.secretKey.value != "" && s.secretKey.value != DevSecretKey
      && !s.debug
      && ValidateConfig(s, dbDirAvailable, modelsDirExists)
  {
    if s.secretKey.None? || s.secretKey.value == "" || s.secretKey.value == DevSecretKey then false
    else if s.debug then false
    else ValidateConfig(s, dbDirAvailable, modelsDirExists)
  }

  /** For the production class DEBUG is always off, so the verdict depends only on the
      SECRET_KEY variable and validate_config. */
  lemma ProductionVerdict(base: Settings, secretKeyVar: Option<string>, dbDirAvailable: bool, modelsDirExists: bool)
    ensures var s := SettingsOf(Production, base, secretKeyVar);
      ValidateProductionConfig(s, dbDirAvailable, modelsDirExists) <==>
        && secretKeyVar.Some? && secretKeyVar.value != "" && secretKeyVar.value != DevSecretKey
        && ValidateConfig(base, dbDirAvailable, modelsDirExists)
  {
    var s := SettingsOf(Production, base, secretKeyVar);
    assert ConfigErrors(s, dbDirAvailable, modelsDirExists) == [] <==> ConfigErrors(base, dbDirAvailable, modelsDirExists) == [];
  }

  /** The defaults (300, 850, 0.75) pass the numeric checks. */
  lemma DefaultRangesValid(s: Settings)
    requires s.minCreditScore == 300 && s.maxCreditScore == 850 && s.confidenceThreshold == 0.75
    ensures ValidateConfig(s, true, true)
    ensures !ValidateConfig(s.(minCreditScore := 299), true, true)
    ensures !ValidateConfig(s.(maxCreditScore := 851), true, true)
    ensures !ValidateConfig(s.(minCreditScore := 900), true, true)
  {
  }
}
