/**
 * The ingestion ignore rules of `rag_agent.py`: directories are ignored when
 * hidden or listed, files when their name matches one of the glob patterns.
 * Each pattern is turned into a regular expression by replacing `*` with
 * `.*` and `?` with `.`, anchored with `^` and `$` and compiled
 * case-insensitively. Every other character, `.` included, is left as it
 * is, so a `.` in a pattern matches any character (`Translate`, which the
 * filter uses). `TranslateEscaped` is the translation with the dot taken
 * literally, as glob patterns mean it.
 */
module PathFiltering {
  import opened Strings

  /** One element of a compiled pattern: a literal, `.` or `.*`. */
  datatype Token = Lit(c: char) | AnyChar | AnyRun

  /** The regular-expression element a pattern character becomes. */
  function TokenOf(c: char): Token {
    if c == '*' then AnyRun
    else if c == '?' || c == '.' then AnyChar
    else Lit(c)
  }

  /** `pattern.replace('*', '.*').replace('?', '.')`, as the compiled expression. */
  function Translate(p: string): (r: seq<Token>)
    ensures |r| == |p|
    ensures forall i :: 0 <= i < |p| ==> r[i] == TokenOf(p[i])
  {
    seq(|p|, i requires 0 <= i < |p| => TokenOf(p[i]))
  }

  /** One character against a literal, ignoring ASCII case. */
  predicate SameLetter(a: char, b: char) {
    LowerChar(a) == LowerChar(b)
  }

  /**
   * The expression matches all of `s`: a literal matches its letter in
   * either case, `.` any character except a line feed, `.*` any run of such.
   */
  predicate TokensMatch(ts: seq<Token>, s: string)
    decreases |ts|, |s|
  {
    if |ts| == 0 then |s| == 0
    else match ts[0]
      case Lit(c) => |s| > 0 && SameLetter(s[0], c) && TokensMatch(ts[1..], s[1..])
      case AnyChar => |s| > 0 && s[0] != '\n' && TokensMatch(ts[1..], s[1..])
      case AnyRun => TokensMatch(ts[1..], s) || (|s| > 0 && s[0] != '\n' && TokensMatch(ts, s[1..]))
  }

  /** `re.match('^' + expr + '$', s)`: `$` also matches before a final line feed. */
  predicate FullMatch(ts: seq<Token>, s: string) {
    TokensMatch(ts, s) || (|s| > 0 && s[|s| - 1] == '\n' && TokensMatch(ts, s[..|s| - 1]))
  }

  predicate NoWildcards(p: string) {
    forall i :: 0 <= i < |p| ==> p[i] != '*' && p[i] != '?'
  }

  /** A pattern character against a name character, with `.` meaning any character but a line feed. */
  predicate CharMatches(pc: char, c: char) {
    if pc == '.' then c != '\n' else SameLetter(c, pc)
  }

  /** A pattern without `*` and `?` matches the names of its length whose characters match one by one. */
  lemma {:induction false} WildcardFreeMatch(p: string, s: string)
    requires NoWildcards(p)
    ensures TokensMatch(Translate(p), s) <==> |s| == |p| && forall i :: 0 <= i < |p| ==> CharMatches(p[i], s[i])
  {
    if |p| > 0 && |s| > 0 {
      WildcardFreeMatch(p[1..], s[1..]);
      assert Translate(p)[1..] == Translate(p[1..]);
      if |s| == |p| && (forall i :: 0 <= i < |p| ==> CharMatches(p[i], s[i])) {
        assert forall i :: 0 <= i < |p| - 1 ==> CharMatches(p[1..][i], s[1..][i]) by {
          forall i | 0 <= i < |p| - 1
            ensures CharMatches(p[1..][i], s[1..][i])
          {
            assert CharMatches(p[i + 1], s[i + 1]);
          }
        }
      }
      if TokensMatch(Translate(p), s) {
        forall i | 0 <= i < |p|
          ensures CharMatches(p[i], s[i])
        {
          if i > 0 {
            assert CharMatches(p[1..][i - 1], s[1..][i - 1]);
          }
        }
      }
    }
  }

  /** The file name patterns of the default configuration, group by group. */
  const DefaultIgnoreFiles: seq<string> :=
    GeneratedFiles + BinaryFiles + ArchiveFiles + OtherLanguageFiles + DatabaseFiles
    + EditorFiles + SensitiveConfigFiles + CoverageFiles + PackageManagerFiles + DocumentFiles

  const GeneratedFiles: seq<string> := [
    "*.log", "*.tmp", "*.temp", "*.pyc", "*.pyo", "*.pyd", "*.so", "*.egg", "*.egg-info",
    ".DS_Store", "Thumbs.db", "*.min.js", "*.min.css", "package-lock.json", "yarn.lock",
    "*.bundle.js", "*.chunk.js"]
  const BinaryFiles: seq<string> := [
    "*.exe", "*.dll", "*.bin", "*.dat",
    "*.jpg", "*.jpeg", "*.png", "*.gif", "*.bmp", "*.svg", "*.ico",
    "*.mp3", "*.mp4", "*.avi", "*.mov", "*.wav", "*.pdf"]
  const ArchiveFiles: seq<string> := ["*.zip", "*.tar", "*.gz", "*.rar", "*.7z"]
  const OtherLanguageFiles: seq<string> := [
    "*.java", "*.class", "*.jar",
    "*.c", "*.cpp", "*.h", "*.hpp", "*.o",
    "*.cs", "*.vb", "*.fs",
    "*.php", "*.rb", "*.go", "*.rs", "*.kt", "*.swift",
    "*.scala", "*.clj", "*.r", "*.m", "*.pl", "*.lua"]
  const DatabaseFiles: seq<string> := ["*.db", "*.sqlite", "*.mdb", "*.lock", "*.pid"]
  const EditorFiles: seq<string> := [
    "*.swp", "*.swo", "*~", "*.bak", "*.orig",
    ".gitignore", ".gitattributes", ".gitmodules",
    "*.iml", "*.sln", "*.vcxproj", "*.csproj"]
  const SensitiveConfigFiles: seq<string> := ["*.env", "*.env.*", ".env.*"]
  const CoverageFiles: seq<string> := ["*.coverage", ".coverage.*", "coverage.xml"]
  const PackageManagerFiles: seq<string> := ["composer.lock", "Pipfile.lock", "poetry.lock"]
  const DocumentFiles: seq<string> := ["*.pdf", "*.docx", "*.xlsx", "*.pptx"]

  /** The directory names of the default configuration. */
  const DefaultIgnoreDirectories: seq<string> := [
    "node_modules", ".git", "__pycache__", ".pytest_cache", "venv", ".venv", "env", ".env",
    "build", "dist", ".next", ".nuxt", "coverage", ".coverage", ".nyc_output", "logs", "tmp",
    "temp", ".cache", ".tox", ".mypy_cache", ".sass-cache", "bower_components", "jspm_packages",
    ".vscode", ".idea", ".vs", ".atom", ".sublime-text",
    "target", "bin", "obj", ".gradle", ".mvn",
    ".Trash", "System Volume Information", "$RECYCLE.BIN"]

  /** Some pattern of `patterns`, compiled by `translate`, matches all of `name`. */
  predicate MatchesSome(translate: string -> seq<Token>, patterns: seq<string>, name: string) {
    exists i :: 0 <= i < |patterns| && FullMatch(translate(patterns[i]), name)
  }

  // ---------------------------------------------------------------------
  // Paths
  // ---------------------------------------------------------------------

  /** The components that survive normalisation: empty and `.` components are dropped. */
  function Significant(cs: seq<string>): (r: seq<string>)
    ensures forall i :: 0 <= i < |r| ==> r[i] != "" && r[i] != "." && r[i] in cs
  {
    if |cs| == 0 then []
    else if cs[0] == "" || cs[0] == "." then Significant(cs[1..])
    else [cs[0]] + Significant(cs[1..])
  }

  /**
   * `Path(p).parts` on POSIX: the root (`//` when the path starts with
   * exactly two slashes, `/` otherwise) followed by the significant
   * slash-separated components.
   */
  function PathParts(path: string): (r: seq<string>)
    ensures r == [] <==> Significant(Split(path, "/")) == [] && !("/" <= path)
  {
    var root := if "//" <= path && !("///" <= path) then ["//"] else if "/" <= path then ["/"] else [];
    root + Significant(Split(path, "/"))
  }

  class PathFilter {
    const ignoreDirectories: set<string>
    const ignoreFilePatterns: seq<string>
    /** The compiled form of each pattern, in the same order. */
    const compiledFilePatterns: seq<seq<Token>>

    predicate Valid() {
      |compiledFilePatterns| == |ignoreFilePatterns|
      && forall i :: 0 <= i < |ignoreFilePatterns| ==> compiledFilePatterns[i] == Translate(ignoreFilePatterns[i])
    }

    constructor (directories: seq<string>, files: seq<string>)
      ensures Valid()
      ensures ignoreDirectories == set d | d in directories
      ensures ignoreFilePatterns == files
    {
      ignoreDirectories := set d | d in directories;
      ignoreFilePatterns := files;
      var compiled: seq<seq<Token>> := [];
      for i := 0 to |files|
        invariant |compiled| == i
        invariant forall k :: 0 <= k < i ==> compiled[k] == Translate(files[k])
      {
        compiled := compiled + [Translate(files[i])];
      }
      compiledFilePatterns := compiled;
    }

    /** Hidden directories, those whose name starts with a dot, and listed ones are ignored. */
    predicate ShouldIgnoreDirectory(name: string): (r: bool)
      ensures r <==> (|name| > 0 && name[0] == '.') || name in ignoreDirectories
    {
      StartsWith(name, ".") || name in ignoreDirectories
    }

    /** A file is ignored when some compiled pattern matches all of its name. */
    method ShouldIgnoreFile(name: string) returns (r: bool)
      requires Valid()
      ensures r <==> MatchesSome(Translate, ignoreFilePatterns, name)
    {
      for i := 0 to |compiledFilePatterns|
        invariant forall k :: 0 <= k < i ==> !FullMatch(Translate(ignoreFilePatterns[k]), name)
      {
        if FullMatch(compiledFilePatterns[i], name) {
          return true;
        }
      }
      return false;
    }

    /**
     * A path is ignored when a component before the last is an ignored
     * directory, or the last component is an ignored file; the empty path is not.
     */
    method ShouldIgnorePath(path: string) returns (r: bool)
      requires Valid()
      ensures var parts := PathParts(path);
        r <==> (exists i :: 0 <= i < |parts| - 1 && ShouldIgnoreDirectory(parts[i]))
               || (|parts| > 0 && MatchesSome(Translate, ignoreFilePatterns, parts[|parts| - 1]))
    {
      var parts := PathParts(path);
      var i := 0;
      while i < |parts| - 1
        invariant 0 <= i <= if |parts| == 0 then 0 else |parts| - 1
        invariant forall k :: 0 <= k < i ==> !ShouldIgnoreDirectory(parts[k])
      {
        if ShouldIgnoreDirectory(parts[i]) {
          return true;
        }
        i := i + 1;
      }
      if |parts| > 0 {
        r := ShouldIgnoreFile(parts[|parts| - 1]);
      } else {
        r := false;
      }
    }
  }

  // ---------------------------------------------------------------------
  // The unescaped dot, and the translation that escapes it
  // ---------------------------------------------------------------------

  /** A pattern that starts with a star compiles to `.*` followed by the rest of it. */
  lemma TranslateStar(p: string)
    ensures Translate("*" + p) == [AnyRun] + Translate(p)
  {
    var t := Translate("*" + p);
    assert forall i :: 0 < i < |t| ==> t[i] == Translate(p)[i - 1];
  }

  /** `*.min.js`, compiled as written, matches `admin.js`. */
  lemma MinJsMatchesAdminJs()
    ensures FullMatch(Translate("*.min.js"), "admin.js")
  {
    var s := "admin.js";
    assert "*.min.js" == "*" + ".min.js";
    TranslateStar(".min.js");
    WildcardFreeMatch(".min.js", s[1..]);
    assert s[1..] == "dmin.js";
    assert forall i :: 0 <= i < 7 ==> CharMatches(".min.js"[i], "dmin.js"[i]);
    assert NoLineFeed(s);
    AnyRunFrom(Translate(".min.js"), s, 1);
  }

  /** The default `*.min.js` pattern ignores `admin.js`, which does not end in `.min.js`. */
  lemma MinJsIgnoresAdminJs()
    ensures MatchesSome(Translate, DefaultIgnoreFiles, "admin.js")
    ensures !EndsWith("admin.js", ".min.js")
  {
    MinJsMatchesAdminJs();
    assert GeneratedFiles[11] == "*.min.js";
    assert DefaultIgnoreFiles[11] == "*.min.js";
    assert FullMatch(Translate(DefaultIgnoreFiles[11]), "admin.js");
  }

  /** `*.h`, compiled as written, matches `deploy.sh`. */
  lemma HeaderMatchesShellScript()
    ensures FullMatch(Translate("*.h"), "deploy.sh")
  {
    var s := "deploy.sh";
    assert "*.h" == "*" + ".h";
    TranslateStar(".h");
    WildcardFreeMatch(".h", s[7..]);
    assert s[7..] == "sh";
    assert CharMatches('.', 's') && CharMatches('h', 'h');
    assert NoLineFeed(s);
    AnyRunFrom(Translate(".h"), s, 7);
  }

  /** The default `*.h` pattern ignores every shell script, for instance `deploy.sh`. */
  lemma HeaderPatternIgnoresShellScripts()
    ensures MatchesSome(Translate, DefaultIgnoreFiles, "deploy.sh")
    ensures !EndsWith("deploy.sh", ".h")
  {
    var name := "deploy.sh";
    HeaderIsOtherLanguage();
    assert "deploy.sh"[7..] == "sh";
    var front := GeneratedFiles + BinaryFiles + ArchiveFiles;
    MatchesSomeAppend(Translate, front, OtherLanguageFiles, name);
    var acc := front + OtherLanguageFiles;
    MatchesSomeAppend(Translate, acc, DatabaseFiles, name);
    acc := acc + DatabaseFiles;
    MatchesSomeAppend(Translate, acc, EditorFiles, name);
    acc := acc + EditorFiles;
    MatchesSomeAppend(Translate, acc, SensitiveConfigFiles, name);
    acc := acc + SensitiveConfigFiles;
    MatchesSomeAppend(Translate, acc, CoverageFiles, name);
    acc := acc + CoverageFiles;
    MatchesSomeAppend(Translate, acc, PackageManagerFiles, name);
    acc := acc + PackageManagerFiles;
    MatchesSomeAppend(Translate, acc, DocumentFiles, name);
    acc := acc + DocumentFiles;
    assert acc == DefaultIgnoreFiles;
  }

  lemma HeaderIsOtherLanguage()
    ensures MatchesSome(Translate, OtherLanguageFiles, "deploy.sh")
  {
    var p := OtherLanguageFiles[5];
    assert p == "*.h";
    HeaderMatchesShellScript();
    assert FullMatch(Translate(p), "deploy.sh");
  }

  /** A name some pattern of either list matches is matched by some pattern of both together. */
  lemma MatchesSomeAppend(translate: string -> seq<Token>, a: seq<string>, b: seq<string>, name: string)
    ensures MatchesSome(translate, a, name) || MatchesSome(translate, b, name) ==> MatchesSome(translate, a + b, name)
  {
    if MatchesSome(translate, a, name) {
      var i :| 0 <= i < |a| && FullMatch(translate(a[i]), name);
      assert (a + b)[i] == a[i];
    } else if MatchesSome(translate, b, name) {
      var i :| 0 <= i < |b| && FullMatch(translate(b[i]), name);
      assert (a + b)[|a| + i] == b[i];
    }
  }

  /** The intended translation: `*` and `?` are wildcards and every other character, `.` included, is literal. */
  function EscapedTokenOf(c: char): Token {
    if c == '*' then AnyRun
    else if c == '?' then AnyChar
    else Lit(c)
  }

  function TranslateEscaped(p: string): (r: seq<Token>)
    ensures |r| == |p|
    ensures forall i :: 0 <= i < |p| ==> r[i] == EscapedTokenOf(p[i])
  {
    seq(|p|, i requires 0 <= i < |p| => EscapedTokenOf(p[i]))
  }

  predicate NoLineFeed(s: string) {
    forall i :: 0 <= i < |s| ==> s[i] != '\n'
  }

  /** `a` and `b` are equal ignoring ASCII case. */
  predicate SameLetters(a: string, b: string) {
    |a| == |b| && forall i :: 0 <= i < |a| ==> SameLetter(a[i], b[i])
  }

  /** Under the escaped translation a wildcard-free pattern matches exactly the names equal to it ignoring case. */
  lemma {:induction false} EscapedLiteralMatch(p: string, s: string)
    requires NoWildcards(p)
    ensures TokensMatch(TranslateEscaped(p), s) <==> SameLetters(s, p)
  {
    if |p| > 0 && |s| > 0 {
      EscapedLiteralMatch(p[1..], s[1..]);
      assert TranslateEscaped(p)[1..] == TranslateEscaped(p[1..]);
      if SameLetters(s, p) {
        assert SameLetters(s[1..], p[1..]) by {
          forall i | 0 <= i < |p| - 1
            ensures SameLetter(s[1..][i], p[1..][i])
          {
            assert SameLetter(s[i + 1], p[i + 1]);
          }
        }
      }
      if TokensMatch(TranslateEscaped(p), s) {
        forall i | 0 <= i < |p|
          ensures SameLetter(s[i], p[i])
        {
          if i > 0 {
            assert SameLetter(s[1..][i - 1], p[1..][i - 1]);
          }
        }
      }
    }
  }

  /** A leading `.*` lets the rest match any suffix of a name without line feeds. */
  lemma {:induction false} AnyRunFrom(ts: seq<Token>, s: string, k: nat)
    requires NoLineFeed(s) && k <= |s| && TokensMatch(ts, s[k..])
    ensures TokensMatch([AnyRun] + ts, s)
    decreases k
  {
    var t := [AnyRun] + ts;
    assert t[1..] == ts;
    if k == 0 {
      assert s[0..] == s;
    } else {
      assert s[1..][k - 1..] == s[k..];
      AnyRunFrom(ts, s[1..], k - 1);
    }
  }

  /** Where a leading `.*` stops: the rest matches the suffix from there. */
  lemma {:induction false} AnyRunSplit(ts: seq<Token>, s: string) returns (k: nat)
    requires TokensMatch([AnyRun] + ts, s)
    ensures k <= |s| && TokensMatch(ts, s[k..])
    decreases |s|
  {
    var t := [AnyRun] + ts;
    assert t[1..] == ts;
    if TokensMatch(ts, s) {
      assert s[0..] == s;
      k := 0;
    } else {
      var j := AnyRunSplit(ts, s[1..]);
      assert s[1..][j..] == s[j + 1..];
      k := j + 1;
    }
  }

  /**
   * With the dot escaped, `*` followed by a wildcard-free suffix matches a
   * name without line feeds exactly when the name ends with that suffix,
   * ignoring case.
   */
  lemma EscapedSuffixMatch(suffix: string, name: string)
    requires NoWildcards(suffix) && NoLineFeed(name)
    ensures FullMatch(TranslateEscaped("*" + suffix), name) <==>
      |suffix| <= |name| && SameLetters(name[|name| - |suffix|..], suffix)
  {
    var ts := TranslateEscaped(suffix);
    assert TranslateEscaped("*" + suffix) == [AnyRun] + ts;
    if |suffix| <= |name| && SameLetters(name[|name| - |suffix|..], suffix) {
      EscapedLiteralMatch(suffix, name[|name| - |suffix|..]);
      AnyRunFrom(ts, name, |name| - |suffix|);
    }
    if TokensMatch([AnyRun] + ts, name) {
      var k := AnyRunSplit(ts, name);
      EscapedLiteralMatch(suffix, name[k..]);
    }
  }

  /**
   * As written, `*` followed by a wildcard-free suffix matches a name without
   * line feeds exactly when the name's last characters match the suffix one
   * by one, each `.` of the suffix standing for any character.
   */
  lemma SuffixMatch(suffix: string, name: string)
    requires NoWildcards(suffix) && NoLineFeed(name)
    ensures FullMatch(Translate("*" + suffix), name) <==>
      |suffix| <= |name| && forall i :: 0 <= i < |suffix| ==> CharMatches(suffix[i], name[|name| - |suffix| + i])
  {
    TranslateStar(suffix);
    assert FullMatch(Translate("*" + suffix), name) == TokensMatch([AnyRun] + Translate(suffix), name);
    if |suffix| <= |name| && forall i :: 0 <= i < |suffix| ==> CharMatches(suffix[i], name[|name| - |suffix| + i]) {
      SuffixMatchIf(suffix, name);
    }
    if TokensMatch([AnyRun] + Translate(suffix), name) {
      SuffixMatchOnlyIf(suffix, name);
    }
  }

  lemma SuffixMatchIf(suffix: string, name: string)
    requires NoWildcards(suffix) && NoLineFeed(name) && |suffix| <= |name|
    requires forall i :: 0 <= i < |suffix| ==> CharMatches(suffix[i], name[|name| - |suffix| + i])
    ensures TokensMatch([AnyRun] + Translate(suffix), name)
  {
    var k := |name| - |suffix|;
    assert forall i :: 0 <= i < |suffix| ==> name[k..][i] == name[k + i];
    WildcardFreeMatch(suffix, name[k..]);
    AnyRunFrom(Translate(suffix), name, k);
  }

  lemma SuffixMatchOnlyIf(suffix: string, name: string)
    requires NoWildcards(suffix) && TokensMatch([AnyRun] + Translate(suffix), name)
    ensures |suffix| <= |name| && forall i :: 0 <= i < |suffix| ==> CharMatches(suffix[i], name[|name| - |suffix| + i])
  {
    var j := AnyRunSplit(Translate(suffix), name);
    WildcardFreeMatch(suffix, name[j..]);
    forall i | 0 <= i < |suffix|
      ensures CharMatches(suffix[i], name[|name| - |suffix| + i])
    {
      assert name[j..][i] == name[j + i];
    }
  }

  /** With the dot escaped, `*.min.js` no longer matches `admin.js`. */
  lemma EscapedMinJsKeepsAdminJs()
    ensures !FullMatch(TranslateEscaped("*.min.js"), "admin.js")
  {
    assert "*.min.js" == "*" + ".min.js";
    assert NoLineFeed("admin.js");
    EscapedSuffixMatch(".min.js", "admin.js");
    assert "admin.js"[1..][0] == 'd';
    assert !SameLetter('d', '.');
  }

  /** With the dot escaped, `*.h` no longer matches `deploy.sh`. */
  lemma EscapedHeaderKeepsShellScripts()
    ensures !FullMatch(TranslateEscaped("*.h"), "deploy.sh")
  {
    assert "*.h" == "*" + ".h";
    assert NoLineFeed("deploy.sh");
    EscapedSuffixMatch(".h", "deploy.sh");
    assert "deploy.sh"[7..][0] == 's';
    assert !SameLetter('s', '.');
  }
}
