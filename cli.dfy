/**
 * The string handling of index.ts: the `cd` command printed for the chosen
 * directory, the `--path=` override of the projects directory, and the choice
 * between the fish and the POSIX init script.
 */
module Cli {
  import opened Base
  import opened Shell
  import opened Config
  import Scanner

  // ---------------------------------------------------------------------------
  // The `cd` command.

  const QUOTE_ESCAPE := "'\"'\"'"

  /** `path.replace(/'/g, "'\"'\"'")`: each single quote closes the quotes, is double-quoted, and reopens them. */
  function EscapeSingleQuotes(path: string): (r: string)
    ensures |r| >= |path|
  {
    if path == [] then []
    else (if path[0] == '\'' then QUOTE_ESCAPE else [path[0]]) + EscapeSingleQuotes(path[1..])
  }

  /** The line `handleSelect` prints for the shell wrapper to `eval`, as written: one single-quoted word after `cd`. */
  function CdCommand(path: string): (r: string)
    ensures StartsWith(r, "cd '") && r[|r| - 1] == '\''
  {
    "cd '" + EscapeSingleQuotes(path) + "'"
  }

  /** Each single quote of the path grows by the four characters of its escape; nothing else changes length. */
  lemma {:induction false} EscapeLength(path: string)
    ensures |EscapeSingleQuotes(path)| == |path| + 4 * multiset(path)['\'']
  {
    if path != [] {
      EscapeLength(path[1..]);
      assert path == [path[0]] + path[1..];
    }
  }

  /** A path without single quotes is printed as it is. */
  lemma {:induction false} EscapeWithoutQuotes(path: string)
    requires forall i :: 0 <= i < |path| ==> path[i] != '\''
    ensures EscapeSingleQuotes(path) == path
  {
    if path != [] {
      EscapeWithoutQuotes(path[1..]);
      assert path == [path[0]] + path[1..];
    }
  }

  /** The one argument a shell hands `cd` on reading `cmd`, if it reads as `cd` and one word. */
  function PosixCdTarget(cmd: string): Option<string> {
    if StartsWith(cmd, "cd ") then PosixWord(cmd[3..]) else None
  }

  function FishCdTarget(cmd: string): Option<string> {
    if StartsWith(cmd, "cd ") then FishWord(cmd[3..]) else None
  }

  /** The escape of a single quote reads back as that quote in a POSIX shell and in fish. */
  lemma QuoteEscapeReads(t: string, acc: string)
    ensures PosixRead(InSingle, QUOTE_ESCAPE + t, acc) == PosixRead(InSingle, t, acc + "'")
    ensures FishRead(InSingle, QUOTE_ESCAPE + t, acc) == FishRead(InSingle, t, acc + "'")
  {
    var s := QUOTE_ESCAPE + t;
    assert s[0] == '\'' && s[1] == '"' && s[2] == '\'' && s[3] == '"' && s[4] == '\'';
    assert s[1..][1..] == s[2..] && s[2..][1..] == s[3..] && s[3..][1..] == s[4..] && s[4..][1..] == t;
    calc {
      PosixRead(InSingle, s, acc);
      PosixRead(Outside, s[1..], acc);
      PosixRead(InDouble, s[2..], acc);
      PosixRead(InDouble, s[3..], acc + "'");
      PosixRead(Outside, s[4..], acc + "'");
      PosixRead(InSingle, t, acc + "'");
    }
    calc {
      FishRead(InSingle, s, acc);
      FishRead(Outside, s[1..], acc);
      FishRead(InDouble, s[2..], acc);
      FishRead(InDouble, s[3..], acc + "'");
      FishRead(Outside, s[4..], acc + "'");
      FishRead(InSingle, t, acc + "'");
    }
  }

  /** Inside the opening quote, a POSIX shell reads the escape back as the path. */
  lemma {:induction false} PosixReadsEscape(p: string, rest: string, acc: string)
    ensures PosixRead(InSingle, EscapeSingleQuotes(p) + rest, acc) == PosixRead(InSingle, rest, acc + p)
  {
    if p == [] {
      assert acc + p == acc && EscapeSingleQuotes(p) + rest == rest;
    } else {
      var t := EscapeSingleQuotes(p[1..]) + rest;
      PosixReadsEscape(p[1..], rest, acc + [p[0]]);
      assert acc + [p[0]] + p[1..] == acc + p;
      if p[0] == '\'' {
        assert EscapeSingleQuotes(p) + rest == QUOTE_ESCAPE + t;
        QuoteEscapeReads(t, acc);
      } else {
        assert EscapeSingleQuotes(p) + rest == [p[0]] + t;
        assert ([p[0]] + t)[1..] == t;
      }
    }
  }

  /** A POSIX shell reading the printed command hands `cd` exactly the chosen path as its one argument. */
  lemma CdCommandPosix(path: string)
    ensures PosixCdTarget(CdCommand(path)) == Some(path)
  {
    var cmd := CdCommand(path);
    assert cmd[3..] == "'" + (EscapeSingleQuotes(path) + "'");
    PosixReadsEscape(path, "'", "");
    assert "" + path == path;
  }

  /** Fish reads the escape back as the path as long as the path has no backslash. */
  lemma {:induction false} FishReadsEscape(p: string, rest: string, acc: string)
    requires forall i :: 0 <= i < |p| ==> p[i] != '\\'
    ensures FishRead(InSingle, EscapeSingleQuotes(p) + rest, acc) == FishRead(InSingle, rest, acc + p)
  {
    if p == [] {
      assert acc + p == acc && EscapeSingleQuotes(p) + rest == rest;
    } else {
      var t := EscapeSingleQuotes(p[1..]) + rest;
      FishReadsEscape(p[1..], rest, acc + [p[0]]);
      assert acc + [p[0]] + p[1..] == acc + p;
      if p[0] == '\'' {
        assert EscapeSingleQuotes(p) + rest == QUOTE_ESCAPE + t;
        QuoteEscapeReads(t, acc);
      } else {
        assert EscapeSingleQuotes(p) + rest == [p[0]] + t;
        assert ([p[0]] + t)[1..] == t;
      }
    }
  }

  /** In fish the printed command is right for every path without a backslash. */
  lemma CdCommandFishWithoutBackslash(path: string)
    requires forall i :: 0 <= i < |path| ==> path[i] != '\\'
    ensures FishCdTarget(CdCommand(path)) == Some(path)
  {
    var cmd := CdCommand(path);
    assert cmd[3..] == "'" + (EscapeSingleQuotes(path) + "'");
    FishReadsEscape(path, "'", "");
    assert "" + path == path;
  }

  /** Inside single quotes fish takes a character other than a quote or a backslash as it is. */
  lemma FishPlainStep(c: char, t: string, acc: string)
    requires c != '\'' && c != '\\'
    ensures FishRead(InSingle, [c] + t, acc) == FishRead(InSingle, t, acc + [c])
  {
    assert ([c] + t)[1..] == t;
  }

  /**
   * In fish the printed command is wrong for a path that ends in a
   * backslash: the backslash escapes the closing quote and the command does
   * not parse.
   */
  lemma CdCommandFishTrailingBackslash()
    ensures FishCdTarget(CdCommand("x\\")) == None
  {
    assert EscapeSingleQuotes("x\\") == "x\\" by {
      EscapeWithoutQuotes("x\\");
    }
    var w := "'x\\'";
    assert CdCommand("x\\")[3..] == w;
    assert w == "'" + ("x" + "\\'") && w[1..] == ['x'] + "\\'";
    FishPlainStep('x', "\\'", "");
    assert "" + ['x'] == "x" && "\\'"[2..] == [];
  }

  /** In fish two backslashes in a path come out as one. */
  lemma CdCommandFishDoubleBackslash()
    ensures FishCdTarget(CdCommand("x\\\\")) == Some("x\\")
  {
    var cmd, w := CdCommand("x\\\\"), "'x\\\\'";
    assert EscapeSingleQuotes("x\\\\") == "x\\\\" by {
      EscapeWithoutQuotes("x\\\\");
    }
    assert cmd == "cd " + w;
    assert cmd[..3] == "cd " && cmd[3..] == w;
    FishReadsDoubled();
  }

  /** Fish reads the word `'x\\\\'` as `x\\`. */
  lemma FishReadsDoubled()
    ensures FishWord("'x\\\\'") == Some("x\\")
  {
    var w, tail := "'x\\\\'", "\\\\'";
    assert w[1..] == ['x'] + tail;
    assert tail[0] == '\\' && tail[1] == '\\' && tail[2..] == "'" && "'"[1..] == [];
    FishPlainStep('x', tail, "");
    assert "" + ['x'] == "x" && "x" + ['\\'] == "x\\";
  }

  // The corrected escape, right in both shells.

  const BACKSLASH_ESCAPE := "'\"\\\\\"'"

  /**
   * Single quotes escaped as before, and each backslash closed out of the
   * single quotes and written as an escaped backslash inside double quotes.
   */
  function EscapePortable(path: string): (r: string)
    ensures |r| >= |path|
  {
    if path == [] then []
    else
      (if path[0] == '\'' then QUOTE_ESCAPE else if path[0] == '\\' then BACKSLASH_ESCAPE else [path[0]])
      + EscapePortable(path[1..])
  }

  function CdCommandPortable(path: string): string {
    "cd '" + EscapePortable(path) + "'"
  }

  /** On a path without backslashes the corrected command is the one printed now. */
  lemma {:induction false} PortableAgrees(path: string)
    requires forall i :: 0 <= i < |path| ==> path[i] != '\\'
    ensures CdCommandPortable(path) == CdCommand(path)
  {
    PortableEscapeAgrees(path);
  }

  lemma {:induction false} PortableEscapeAgrees(path: string)
    requires forall i :: 0 <= i < |path| ==> path[i] != '\\'
    ensures EscapePortable(path) == EscapeSingleQuotes(path)
  {
    if path != [] {
      PortableEscapeAgrees(path[1..]);
    }
  }

  /** The escape of a backslash reads back as that backslash in a POSIX shell and in fish. */
  lemma BackslashEscapeReads(t: string, acc: string)
    ensures PosixRead(InSingle, BACKSLASH_ESCAPE + t, acc) == PosixRead(InSingle, t, acc + "\\")
    ensures FishRead(InSingle, BACKSLASH_ESCAPE + t, acc) == FishRead(InSingle, t, acc + "\\")
  {
    var s := BACKSLASH_ESCAPE + t;
    assert s[0] == '\'' && s[1] == '"' && s[2] == '\\' && s[3] == '\\' && s[4] == '"' && s[5] == '\'';
    assert s[1..][1..] == s[2..] && s[2..][2..] == s[4..] && s[4..][1..] == s[5..] && s[5..][1..] == t;
    calc {
      PosixRead(InSingle, s, acc);
      PosixRead(Outside, s[1..], acc);
      PosixRead(InDouble, s[2..], acc);
      PosixRead(InDouble, s[4..], acc + "\\");
      PosixRead(Outside, s[5..], acc + "\\");
      PosixRead(InSingle, t, acc + "\\");
    }
    calc {
      FishRead(InSingle, s, acc);
      FishRead(Outside, s[1..], acc);
      FishRead(InDouble, s[2..], acc);
      FishRead(InDouble, s[4..], acc + "\\");
      FishRead(Outside, s[5..], acc + "\\");
      FishRead(InSingle, t, acc + "\\");
    }
  }

  /** A POSIX shell reads the corrected escape back as the path. */
  lemma {:induction false} PortableReadsPosix(p: string, rest: string, acc: string)
    ensures PosixRead(InSingle, EscapePortable(p) + rest, acc) == PosixRead(InSingle, rest, acc + p)
  {
    if p == [] {
      assert acc + p == acc && EscapePortable(p) + rest == rest;
    } else {
      PortableReadsPosix(p[1..], rest, acc + [p[0]]);
      assert acc + [p[0]] + p[1..] == acc + p;
      PortableStep(p, rest, acc);
    }
  }

  /** Fish reads the corrected escape back as the path. */
  lemma {:induction false} PortableReadsFish(p: string, rest: string, acc: string)
    ensures FishRead(InSingle, EscapePortable(p) + rest, acc) == FishRead(InSingle, rest, acc + p)
  {
    if p == [] {
      assert acc + p == acc && EscapePortable(p) + rest == rest;
    } else {
      PortableReadsFish(p[1..], rest, acc + [p[0]]);
      assert acc + [p[0]] + p[1..] == acc + p;
      PortableStep(p, rest, acc);
    }
  }

  /** The escape of the first character of `p` reads back as that character in both shells. */
  lemma PortableStep(p: string, rest: string, acc: string)
    requires p != []
    ensures var t := EscapePortable(p[1..]) + rest;
      && PosixRead(InSingle, EscapePortable(p) + rest, acc) == PosixRead(InSingle, t, acc + [p[0]])
      && FishRead(InSingle, EscapePortable(p) + rest, acc) == FishRead(InSingle, t, acc + [p[0]])
  {
    var t := EscapePortable(p[1..]) + rest;
    if p[0] == '\'' {
      assert EscapePortable(p) + rest == QUOTE_ESCAPE + t;
      QuoteEscapeReads(t, acc);
    } else if p[0] == '\\' {
      assert EscapePortable(p) + rest == BACKSLASH_ESCAPE + t;
      BackslashEscapeReads(t, acc);
    } else {
      assert EscapePortable(p) + rest == [p[0]] + t;
      assert ([p[0]] + t)[1..] == t;
    }
  }

  /** Both shells read the corrected escape back as the path. */
  lemma PortableReads(p: string, rest: string, acc: string)
    ensures PosixRead(InSingle, EscapePortable(p) + rest, acc) == PosixRead(InSingle, rest, acc + p)
    ensures FishRead(InSingle, EscapePortable(p) + rest, acc) == FishRead(InSingle, rest, acc + p)
  {
    PortableReadsPosix(p, rest, acc);
    PortableReadsFish(p, rest, acc);
  }

  /** Both shells reading the corrected command hand `cd` exactly the chosen path as its one argument. */
  lemma CdCommandPortableRoundTrip(path: string)
    ensures PosixCdTarget(CdCommandPortable(path)) == Some(path)
    ensures FishCdTarget(CdCommandPortable(path)) == Some(path)
  {
    var cmd := CdCommandPortable(path);
    assert cmd[3..] == "'" + (EscapePortable(path) + "'");
    PortableReads(path, "'", "");
    assert "" + path == path;
  }

  /**
   * `handleSelect`: record the visit, then print the command the shell
   * wrapper evaluates.
   */
  method HandleSelect(store: ConfigStore, project: Scanner.ProjectInfo, now: int) returns (stdout: string)
    modifies store, store.defaultConfig
    ensures stdout == CdCommand(project.path) + "\n"
    ensures PosixCdTarget(stdout[..|stdout| - 1]) == Some(project.path)
    ensures var before := Loaded(old(store.defaultConfig.Value()), old(store.file));
      var after := before.(recentDirs := AddRecent(before.recentDirs, project.path, project.name, now, before.maxRecents));
      && store.file == Parsed(Stored(after))
      && store.defaultConfig.Value() == if store.Shares(old(store.file)) then after else old(store.defaultConfig.Value())
  {
    store.AddRecentDirectory(project.path, project.name, now);
    stdout := CdCommand(project.path) + "\n";
    assert stdout[..|stdout| - 1] == CdCommand(project.path);
    CdCommandPosix(project.path);
  }

  /** `handleSelect` printing the corrected command, which both shells read back as the path. */
  method HandleSelectPortable(store: ConfigStore, project: Scanner.ProjectInfo, now: int) returns (stdout: string)
    modifies store, store.defaultConfig
    ensures stdout == CdCommandPortable(project.path) + "\n"
    ensures PosixCdTarget(stdout[..|stdout| - 1]) == Some(project.path)
    ensures FishCdTarget(stdout[..|stdout| - 1]) == Some(project.path)
    ensures var before := Loaded(old(store.defaultConfig.Value()), old(store.file));
      var after := before.(recentDirs := AddRecent(before.recentDirs, project.path, project.name, now, before.maxRecents));
      && store.file == Parsed(Stored(after))
      && store.defaultConfig.Value() == if store.Shares(old(store.file)) then after else old(store.defaultConfig.Value())
  {
    store.AddRecentDirectory(project.path, project.name, now);
    stdout := CdCommandPortable(project.path) + "\n";
    assert stdout[..|stdout| - 1] == CdCommandPortable(project.path);
    CdCommandPortableRoundTrip(project.path);
  }

  // ---------------------------------------------------------------------------
  // The `--path=` override.

  /** `s.split(sep)`. */
  function Split(s: string, sep: char): (parts: seq<string>)
    ensures |parts| >= 1
    ensures |parts| >= 2 <==> sep in s
    ensures forall i :: 0 <= i < |parts| ==> sep !in parts[i]
  {
    if s == [] then [""]
    else if s[0] == sep then [""] + Split(s[1..], sep)
    else
      var rest := Split(s[1..], sep);
      [[s[0]] + rest[0]] + rest[1..]
  }

  /** `parts.join(sep)`: the partner of `Split`. */
  function JoinWith(parts: seq<string>, sep: char): string
    requires |parts| >= 1
  {
    if |parts| == 1 then parts[0] else parts[0] + [sep] + JoinWith(parts[1..], sep)
  }

  /** Splitting and joining again gives back the string. */
  lemma {:induction false} SplitJoin(s: string, sep: char)
    ensures JoinWith(Split(s, sep), sep) == s
  {
    if s != [] {
      SplitJoin(s[1..], sep);
      var rest := Split(s[1..], sep);
      assert s == [s[0]] + s[1..];
      if s[0] == sep {
        assert ([""] + rest)[1..] == rest;
      } else {
        JoinHeadChar(s[0], rest, sep);
      }
    }
  }

  /** Putting a character in front of the first part puts it in front of the joined string. */
  lemma JoinHeadChar(c: char, parts: seq<string>, sep: char)
    requires |parts| >= 1
    ensures JoinWith([[c] + parts[0]] + parts[1..], sep) == [c] + JoinWith(parts, sep)
  {
    var moved := [[c] + parts[0]] + parts[1..];
    assert moved[0] == [c] + parts[0];
    if |parts| > 1 {
      assert moved[1..] == parts[1..];
    }
  }

  /** The first part of a split is everything up to the first separator. */
  lemma {:induction false} SplitHead(s: string, sep: char)
    ensures var h := Split(s, sep)[0];
      |h| <= |s| && s[..|h|] == h && (|h| == |s| || s[|h|] == sep)
  {
    if s != [] && s[0] != sep {
      SplitHead(s[1..], sep);
    }
  }

  /** The parts after a separator-free prefix and one separator are the split of what follows. */
  lemma {:induction false} SplitAfterPrefix(a: string, b: string, sep: char)
    requires sep !in a
    ensures Split(a + [sep] + b, sep) == [a] + Split(b, sep)
  {
    if a == [] {
      assert [] + [sep] + b == [sep] + b;
      assert ([sep] + b)[1..] == b;
    } else {
      assert (a + [sep] + b)[1..] == a[1..] + [sep] + b;
      SplitAfterPrefix(a[1..], b, sep);
      assert [a[0]] + a[1..] == a;
    }
  }

  /** The index of the first argument starting with `--path=`: `findIndex`. */
  function FirstPathFlag(args: seq<string>): (r: Option<nat>)
    ensures r.None? <==> forall i :: 0 <= i < |args| ==> !StartsWith(args[i], "--path=")
    ensures r.Some? ==> (r.value < |args| && StartsWith(args[r.value], "--path=")
      && forall j :: 0 <= j < r.value ==> !StartsWith(args[j], "--path="))
  {
    if args == [] then None
    else if StartsWith(args[0], "--path=") then Some(0)
    else
      match FirstPathFlag(args[1..])
      case None => None
      case Some(i) => Some(i + 1)
  }

  /** `pathArg.split('=')[1]`, absent when the argument has no `=`. */
  function FlagValue(arg: string): (r: Option<string>)
    ensures r.Some? <==> '=' in arg
    ensures r.Some? ==> '=' !in r.value
  {
    var parts := Split(arg, '=');
    if |parts| >= 2 then Some(parts[1]) else None
  }

  /** The value of a `--path=` argument runs from after the `=` to the next `=` or the end. */
  lemma FlagValueSegment(arg: string)
    requires StartsWith(arg, "--path=")
    ensures var v := FlagValue(arg);
      && v.Some?
      && StartsWith(arg, "--path=" + v.value)
      && '=' !in v.value
      && (|arg| == 7 + |v.value| || arg[7 + |v.value|] == '=')
  {
    var rest := arg[7..];
    assert arg == "--path" + ['='] + rest;
    SplitAfterPrefix("--path", rest, '=');
    SplitHead(rest, '=');
    var v := Split(rest, '=')[0];
    assert arg[..7 + |v|] == "--path=" + v;
  }

  predicate IsQuote(c: char) {
    c == '"' || c == '\''
  }

  /** `value.replace(/^["']|["']$/g, '')`: one leading and one trailing quote dropped. */
  function StripQuotes(v: string): (r: string)
    ensures multiset(r) <= multiset(v)
    ensures |v| >= 2 && IsQuote(v[0]) && IsQuote(v[|v| - 1]) ==> r == v[1..|v| - 1]
    ensures |v| >= 1 && IsQuote(v[0]) && !IsQuote(v[|v| - 1]) ==> r == v[1..]
    ensures |v| >= 1 && !IsQuote(v[0]) && IsQuote(v[|v| - 1]) ==> r == v[..|v| - 1]
    ensures |v| == 0 || (!IsQuote(v[0]) && !IsQuote(v[|v| - 1])) ==> r == v
    ensures |v| == 1 && IsQuote(v[0]) ==> r == ""
  {
    var start := if |v| > 0 && IsQuote(v[0]) then 1 else 0;
    var end := if |v| > start && IsQuote(v[|v| - 1]) then |v| - 1 else |v|;
    SliceWithin(v, start, end);
    v[start..end]
  }

  /** A slice holds no character more often than the whole string. */
  lemma SliceWithin(v: string, start: nat, end: nat)
    requires start <= end <= |v|
    ensures multiset(v[start..end]) <= multiset(v)
  {
    assert v == v[..start] + v[start..end] + v[end..];
  }

  /** The projects directory the arguments ask for, if any. */
  function PathOverride(args: seq<string>): (r: Option<string>)
    ensures FirstPathFlag(args).None? ==> r.None?
    ensures r.Some? ==> '=' !in r.value
  {
    match FirstPathFlag(args)
    case None => None
    case Some(i) =>
      if args[i] == "" then None
      else
        match FlagValue(args[i])
        case None => None
        case Some(v) => if v == "" then None else Some(StripQuotes(v))
  }

  /** `main`'s override of `config.projectsDir`: no other field changes. */
  function WithPathOverride(config: KaiConfig, args: seq<string>): (c: KaiConfig)
    ensures c.recentDirs == config.recentDirs && c.maxRecents == config.maxRecents
    ensures PathOverride(args).Some? ==> c.projectsDir == PathOverride(args).value
    ensures PathOverride(args).None? ==> c.projectsDir == config.projectsDir
  {
    match PathOverride(args)
    case Some(dir) => config.(projectsDir := dir)
    case None => config
  }

  /** Exactly the first `--path=` argument decides, and only if its value is non-empty. */
  lemma PathOverrideChoice(args: seq<string>)
    ensures PathOverride(args).Some? <==>
      exists i :: 0 <= i < |args| && StartsWith(args[i], "--path=")
        && (forall j :: 0 <= j < i ==> !StartsWith(args[j], "--path="))
        && FlagValue(args[i]).Some? && FlagValue(args[i]).value != ""
  {
    match FirstPathFlag(args)
    case None =>
    case Some(i) =>
      FlagValueSegment(args[i]);
      assert args[i] != "";
      forall k | 0 <= k < |args| && StartsWith(args[k], "--path=")
          && (forall j :: 0 <= j < k ==> !StartsWith(args[j], "--path="))
        ensures k == i
      {
      }
  }

  /**
   * A directory without `=` and without a quote at either end, passed as the
   * first `--path=` argument, becomes the projects directory unchanged.
   */
  lemma PathFlagRoundTrip(pre: seq<string>, dir: string, post: seq<string>)
    requires forall i :: 0 <= i < |pre| ==> !StartsWith(pre[i], "--path=")
    requires dir != "" && '=' !in dir && !IsQuote(dir[0]) && !IsQuote(dir[|dir| - 1])
    ensures PathOverride(pre + ["--path=" + dir] + post) == Some(dir)
  {
    var args := pre + ["--path=" + dir] + post;
    var arg := "--path=" + dir;
    assert args[|pre|] == arg;
    assert StartsWith(arg, "--path=") by {
      assert arg[..7] == "--path=";
    }
    forall j | 0 <= j < |pre| ensures !StartsWith(args[j], "--path=") {
      assert args[j] == pre[j];
    }
    assert FirstPathFlag(args) == Some(|pre|);
    assert arg == "--path" + ['='] + dir;
    SplitAfterPrefix("--path", dir, '=');
    assert Split(dir, '=') == [dir] by {
      SplitWithout(dir, '=');
    }
  }

  lemma {:induction false} SplitWithout(s: string, sep: char)
    requires sep !in s
    ensures Split(s, sep) == [s]
  {
    if s != [] {
      SplitWithout(s[1..], sep);
      assert [s[0]] + s[1..] == s;
    }
  }

  // ---------------------------------------------------------------------------
  // One run of the program.

  /**
   * `main` up to `showApp`: load the configuration and write a `--path=`
   * override into the object loaded.
   */
  method StartUp(store: ConfigStore, args: seq<string>) returns (config: ConfigObject)
    modifies store, store.defaultConfig
    ensures config.Value() == WithPathOverride(Loaded(old(store.defaultConfig.Value()), old(store.file)), args)
    ensures store.file == if old(store.file).Missing? then Parsed(Stored(old(store.defaultConfig.Value()))) else old(store.file)
    ensures store.Shares(old(store.file)) ==> config == store.defaultConfig
    ensures store.defaultConfig.Value() == if store.Shares(old(store.file)) then config.Value() else old(store.defaultConfig.Value())
  {
    config := store.LoadConfig();
    match PathOverride(args) {
      case Some(dir) =>
        config.projectsDir := dir;
      case None =>
    }
  }

  /**
   * A run that ends in choosing `project`: `main` starts up with `args`, and
   * `handleSelect` records the visit and prints the command. The visit is
   * saved over the configuration the file holds, except that as written an
   * unparsable file makes `DEFAULT_CONFIG` carry the override into the save.
   */
  method SelectSession(store: ConfigStore, args: seq<string>, project: Scanner.ProjectInfo, now: int) returns (stdout: string)
    modifies store, store.defaultConfig
    ensures var loaded := Loaded(old(store.defaultConfig.Value()), old(store.file));
      var seen := if old(store.file).Unparsable? && !store.copiesDefaults then WithPathOverride(loaded, args) else loaded;
      store.file == Parsed(Stored(seen.(recentDirs := AddRecent(seen.recentDirs, project.path, project.name, now, seen.maxRecents))))
    ensures !store.Shares(old(store.file)) ==> store.defaultConfig.Value() == old(store.defaultConfig.Value())
    ensures stdout == CdCommand(project.path) + "\n"
  {
    ghost var defaults, file := store.defaultConfig.Value(), store.file;
    var config := StartUp(store, args);
    if file.Missing? {
      LoadAfterSave(store.defaultConfig.Value(), defaults);
    }
    stdout := HandleSelect(store, project, now);
  }

  /**
   * As written: with an unparsable config file, a one-off `--path=dir`
   * becomes the projects directory stored in the file.
   */
  method OverrideOutlivesRun(home: string, dir: string, project: Scanner.ProjectInfo, now: int) returns (store: ConfigStore)
    requires dir != "" && '=' !in dir && !IsQuote(dir[0]) && !IsQuote(dir[|dir| - 1])
    ensures store.file.Parsed? && store.file.fields.projectsDir == Some(dir)
  {
    store := new ConfigStore(home, Unparsable, false);
    PathFlagRoundTrip([], dir, []);
    assert [] + ["--path=" + dir] + [] == ["--path=" + dir];
    var stdout := SelectSession(store, ["--path=" + dir], project, now);
  }

  /**
   * Corrected: when `loadConfig` hands out a copy of `DEFAULT_CONFIG`, the
   * file keeps the projects directory it loads with, whatever the arguments,
   * and `DEFAULT_CONFIG` is never changed.
   */
  method OverrideStaysOneOff(store: ConfigStore, args: seq<string>, project: Scanner.ProjectInfo, now: int) returns (stdout: string)
    requires store.copiesDefaults
    modifies store, store.defaultConfig
    ensures store.file.Parsed?
    ensures store.file.fields.projectsDir == Some(Loaded(old(store.defaultConfig.Value()), old(store.file)).projectsDir)
    ensures store.defaultConfig.Value() == old(store.defaultConfig.Value())
  {
    stdout := SelectSession(store, args, project, now);
  }

  // ---------------------------------------------------------------------------
  // The init script.

  datatype InitScript = FishFunction | PosixFunction

  /** `(process.env.SHELL || '').includes('fish')`. */
  function IsFish(shell: Option<string>): (b: bool)
    ensures b <==> shell.Some? && exists i :: OccursAt(shell.value, "fish", i)
  {
    Contains(shell.GetOr(""), "fish")
  }

  /** The wrapper `kai init` prints: fish syntax exactly when `$SHELL` mentions fish. */
  function ChooseInitScript(shell: Option<string>): (s: InitScript)
    ensures s == FishFunction <==> shell.Some? && exists i :: OccursAt(shell.value, "fish", i)
  {
    if IsFish(shell) then FishFunction else PosixFunction
  }
}
