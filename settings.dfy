/** The server settings file (src/settings.rs): `name = value` lines, `#` comments and the
    three recognised keys `world-name`, `seed` and `pvp`. Every panic of the loader is an
    `Err` here. */
module ServerSettings {
  import opened Wrappers
  import FeatureSeed

  type U64 = FeatureSeed.U64

  datatype Settings = Settings(databasePath: string, seed: U64, pvp: bool, renderDistance: nat)

  /** The reasons `Settings::load` panics on a line of the file. */
  datatype LoadError =
    | MissingSeparator(lineNum: nat, line: string)
    | InvalidPvp(value: string)
    | InvalidSetting(name: string, line: string)

  function Default(): Settings {
    Settings("world.sqlite", 1, false, 16)
  }

  /** `bool::to_string`. */
  function BoolText(b: bool): string {
    if b then "true" else "false"
  }

  /** The text `write_default` stores when there is no settings file: the database path and
      the pvp flag of `s`, both commented out. */
  function DefaultFileText(s: Settings): string {
    "#world-name = " + s.databasePath + "\n" + "#pvp = " + BoolText(s.pvp)
  }

  function DefaultFileContents(): string {
    DefaultFileText(Default())
  }

  /** Unicode White_Space, the characters `str::trim` removes. */
  predicate IsWhitespace(c: char) {
    ('\U{0009}' <= c <= '\U{000D}') || c == ' ' || c == '\U{0085}' || c == '\U{00A0}' ||
    c == '\U{1680}' || ('\U{2000}' <= c <= '\U{200A}') || c == '\U{2028}' || c == '\U{2029}' ||
    c == '\U{202F}' || c == '\U{205F}' || c == '\U{3000}'
  }

  /** `trim_start`. */
  function TrimStart(s: string): string
    decreases |s|
  {
    if s != [] && IsWhitespace(s[0]) then TrimStart(s[1..]) else s
  }

  /** `trim_end`. */
  function TrimEnd(s: string): string
    decreases |s|
  {
    if s != [] && IsWhitespace(s[|s| - 1]) then TrimEnd(s[..|s| - 1]) else s
  }

  /** `trim`. */
  function Trim(s: string): string {
    TrimEnd(TrimStart(s))
  }

  /** `trim_start` drops the leading whitespace and nothing else. */
  lemma {:induction false} TrimStartDropsLeadingWhitespace(s: string)
    ensures var t := TrimStart(s);
      && |t| <= |s| && t == s[|s| - |t|..]
      && (forall k :: 0 <= k < |s| - |t| ==> IsWhitespace(s[k]))
      && (t == [] || !IsWhitespace(t[0]))
    decreases |s|
  {
    if s != [] && IsWhitespace(s[0]) {
      TrimStartDropsLeadingWhitespace(s[1..]);
    }
  }

  /** `trim_end` drops the trailing whitespace and nothing else. */
  lemma {:induction false} TrimEndDropsTrailingWhitespace(s: string)
    ensures var t := TrimEnd(s);
      && |t| <= |s| && t == s[..|t|]
      && (forall k :: |t| <= k < |s| ==> IsWhitespace(s[k]))
      && (t == [] || !IsWhitespace(t[|t| - 1]))
    decreases |s|
  {
    if s != [] && IsWhitespace(s[|s| - 1]) {
      TrimEndDropsTrailingWhitespace(s[..|s| - 1]);
    }
  }

  /** `trim` keeps exactly the text between the leading and the trailing whitespace. */
  lemma TrimKeepsCore(s: string)
    ensures var t := Trim(s);
      && (exists i, j ::
        && 0 <= i <= j <= |s| && t == s[i..j]
        && (forall k :: 0 <= k < i ==> IsWhitespace(s[k]))
        && (forall k :: j <= k < |s| ==> IsWhitespace(s[k])))
      && (t == [] || (!IsWhitespace(t[0]) && !IsWhitespace(t[|t| - 1])))
  {
    var u := TrimStart(s);
    var t := TrimEnd(u);
    TrimStartDropsLeadingWhitespace(s);
    TrimEndDropsTrailingWhitespace(u);
    var i := |s| - |u|;
    assert t == s[i..i + |t|];
    assert forall k :: i + |t| <= k < |s| ==> s[k] == u[k - i];
  }

  /** `split_once`: the text before and after the first occurrence of `sep`. */
  function SplitOnce(s: string, sep: char): (r: Option<(string, string)>)
    ensures r.None? <==> sep !in s
    ensures r.Some? ==> s == r.value.0 + [sep] + r.value.1 && sep !in r.value.0
  {
    if s == [] then None
    else if s[0] == sep then Some(([], s[1..]))
    else match SplitOnce(s[1..], sep)
      case None => None
      case Some((before, after)) => Some(([s[0]] + before, after))
  }

  /** Splitting at a separator that does not occur before it yields exactly the two sides. */
  lemma {:induction false} SplitOnceAt(before: string, after: string, sep: char)
    requires sep !in before
    ensures SplitOnce(before + [sep] + after, sep) == Some((before, after))
  {
    var s := before + [sep] + after;
    if before != [] {
      assert s[0] == before[0] && s[1..] == before[1..] + [sep] + after;
      SplitOnceAt(before[1..], after, sep);
      assert [before[0]] + before[1..] == before;
    } else {
      assert s[0] == sep && s[1..] == after;
    }
  }

  predicate IsComment(line: string) {
    |line| > 0 && line[0] == '#'
  }

  /** The effect of line number `lineNum` of the file on the settings read so far. */
  function ApplyLine(s: Settings, line: string, lineNum: nat, hash: string -> U64): Result<Settings, LoadError> {
    if IsComment(line) then Ok(s)
    else match SplitOnce(line, '=')
      case None => Err(MissingSeparator(lineNum, line))
      case Some((rawName, rawValue)) =>
        var name := Trim(rawName);
        var value := Trim(rawValue);
        if name == "world-name" then Ok(s.(databasePath := "./" + value + ".sqlite"))
        else if name == "seed" then Ok(s.(seed := hash(value)))
        else if name == "pvp" then
          if value == "true" then Ok(s.(pvp := true))
          else if value == "false" then Ok(s.(pvp := false))
          else Err(InvalidPvp(value))
        else Err(InvalidSetting(name, line))
  }

  /** The settings after the first `n` lines, or the error of the first line that fails. */
  function LoadPrefix(lines: seq<string>, n: nat, hash: string -> U64): Result<Settings, LoadError>
    requires n <= |lines|
  {
    if n == 0 then Ok(Default())
    else match LoadPrefix(lines, n - 1, hash)
      case Err(e) => Err(e)
      case Ok(s) => ApplyLine(s, lines[n - 1], n - 1, hash)
  }

  function Loaded(lines: seq<string>, hash: string -> U64): Result<Settings, LoadError> {
    LoadPrefix(lines, |lines|, hash)
  }

  /** Once a line has failed, loading stops with that line's error. */
  lemma {:induction false} ErrorStops(lines: seq<string>, n: nat, m: nat, hash: string -> U64)
    requires n <= m <= |lines| && LoadPrefix(lines, n, hash).Err?
    ensures LoadPrefix(lines, m, hash) == LoadPrefix(lines, n, hash)
    decreases m
  {
    if n < m {
      ErrorStops(lines, n, m - 1, hash);
    }
  }

  /** `Settings::load`. The file is given as its lines (`None` when it cannot be opened); the
      hash of the seed text is a parameter. Also returns what is written to the settings file:
      the defaults when there was no file, nothing otherwise. */
  method Load(file: Option<seq<string>>, hash: string -> U64) returns (result: Result<Settings, LoadError>, written: Option<string>)
    ensures file.None? ==> result == Ok(Default()) && written == Some(DefaultFileContents())
    ensures file.Some? ==> result == Loaded(file.value, hash) && written == None
  {
    var settings := Default();
    if file.None? {
      return Ok(settings), Some(DefaultFileContents());
    }
    var lines := file.value;
    written := None;
    var lineNum := 0;
    while lineNum < |lines|
      invariant lineNum <= |lines|
      invariant LoadPrefix(lines, lineNum, hash) == Ok(settings)
    {
      var next := ApplyLine(settings, lines[lineNum], lineNum, hash);
      if next.Err? {
        ErrorStops(lines, lineNum + 1, |lines|, hash);
        return next, None;
      }
      settings := next.value;
      lineNum := lineNum + 1;
    }
    result := Ok(settings);
  }

  /** A comment line changes nothing; any other line without `=` (the empty line included)
      is an error. */
  lemma LineWithoutSeparator(s: Settings, line: string, lineNum: nat, hash: string -> U64)
    ensures IsComment(line) ==> ApplyLine(s, line, lineNum, hash) == Ok(s)
    ensures !IsComment(line) && '=' !in line ==>
      ApplyLine(s, line, lineNum, hash) == Err(MissingSeparator(lineNum, line))
  {
  }

  /** A `name = value` line: the trimmed text before the first `=` selects the setting, the
      trimmed rest is its value; `world-name` sets the database path, `seed` the hash of the
      value, `pvp` accepts exactly `true` or `false`, and every other name is an error. Each
      accepted line changes exactly one field. */
  lemma {:induction false} AssignmentLine(s: Settings, name: string, value: string, lineNum: nat, hash: string -> U64)
    requires '=' !in name && !IsComment(name + "=" + value)
    ensures var r := ApplyLine(s, name + "=" + value, lineNum, hash);
      var n, v := Trim(name), Trim(value);
      && (n == "world-name" ==> r == Ok(s.(databasePath := "./" + v + ".sqlite")))
      && (n == "seed" ==> r == Ok(s.(seed := hash(v))))
      && (n == "pvp" ==> (r.Ok? <==> v == "true" || v == "false"))
      && (n == "pvp" && r.Ok? ==> r == Ok(s.(pvp := v == "true")))
      && (n !in {"world-name", "seed", "pvp"} ==> r == Err(InvalidSetting(n, name + "=" + value)))
  {
    SplitOnceAt(name, value, '=');
  }

  /** No line can change the render distance, so every successful load keeps 16. */
  lemma {:induction false} RenderDistanceFixed(lines: seq<string>, n: nat, hash: string -> U64)
    requires n <= |lines|
    ensures LoadPrefix(lines, n, hash).Ok? ==> LoadPrefix(lines, n, hash).value.renderDistance == 16
  {
    if n > 0 {
      RenderDistanceFixed(lines, n - 1, hash);
    }
  }

  /** A file made of comments only loads as the defaults. */
  lemma {:induction false} CommentsOnlyLoadDefault(lines: seq<string>, n: nat, hash: string -> U64)
    requires n <= |lines|
    requires forall i :: 0 <= i < |lines| ==> IsComment(lines[i])
    ensures LoadPrefix(lines, n, hash) == Ok(Default())
  {
    if n > 0 {
      CommentsOnlyLoadDefault(lines, n - 1, hash);
    }
  }

  /** Loading only depends on the lines read so far. */
  lemma {:induction false} LoadPrefixExtends(lines: seq<string>, more: seq<string>, n: nat, hash: string -> U64)
    requires n <= |lines|
    ensures LoadPrefix(lines + more, n, hash) == LoadPrefix(lines, n, hash)
  {
    if n > 0 {
      LoadPrefixExtends(lines, more, n - 1, hash);
    }
  }

  /** Later lines overwrite earlier ones: appending a `world-name` line to a file that loads
      sets the path from that line, whatever came before; the other fields are kept. */
  lemma LaterLineWins(lines: seq<string>, name: string, value: string, hash: string -> U64)
    requires Loaded(lines, hash).Ok?
    requires '=' !in name && !IsComment(name + "=" + value) && Trim(name) == "world-name"
    ensures Loaded(lines + [name + "=" + value], hash) ==
      Ok(Loaded(lines, hash).value.(databasePath := "./" + Trim(value) + ".sqlite"))
  {
    var line := name + "=" + value;
    var s := Loaded(lines, hash).value;
    var all := lines + [line];
    assert LoadPrefix(all, |lines|, hash) == Ok(s) by {
      LoadPrefixExtends(lines, [line], |lines|, hash);
    }
    assert ApplyLine(s, line, |lines|, hash) == Ok(s.(databasePath := "./" + Trim(value) + ".sqlite")) by {
      AssignmentLine(s, name, value, |lines|, hash);
    }
    assert all[|lines|] == line && |all| == |lines| + 1;
  }

  /** `BufRead::lines`: the text split at each `\n`, a `\r` just before a removed `\n`
      dropped with it, and no empty line after a final `\n`. A last line that does not end in
      `\n` is kept as it is, `\r` included. */
  function Lines(text: string): seq<string>
    decreases |text|
  {
    if text == [] then []
    else match SplitOnce(text, '\n')
      case None => [text]
      case Some((line, rest)) => [StripCr(line)] + Lines(rest)
  }

  function StripCr(line: string): string {
    if |line| > 0 && line[|line| - 1] == '\r' then line[..|line| - 1] else line
  }

  /** Two lines joined by `\n` read back as those two lines; only the first, which ended at
      the `\n`, loses a trailing `\r`. */
  lemma LinesOfTwo(first: string, second: string)
    requires '\n' !in first && '\n' !in second && second != []
    ensures Lines(first + "\n" + second) == [StripCr(first), second]
  {
    var text := first + "\n" + second;
    assert SplitOnce(text, '\n') == Some((first, second)) by {
      SplitOnceAt(first, second, '\n');
    }
  }

  /** The file `write_default` creates holds comments only, so it loads back as the
      defaults, whatever path it names. */
  lemma DefaultFileLoadsDefault(s: Settings, hash: string -> U64)
    requires '\n' !in s.databasePath
    ensures Loaded(Lines(DefaultFileText(s)), hash) == Ok(Default())
  {
    var first, second := "#world-name = " + s.databasePath, "#pvp = " + BoolText(s.pvp);
    assert DefaultFileText(s) == first + "\n" + second;
    LinesOfTwo(first, second);
    CommentsOnlyLoadDefault([StripCr(first), second], 2, hash);
  }
}
