/**
 * The desktop shell's backend manager (Seed/src-tauri/src/backend_manager.rs):
 * parsing `python --version` output, the 3.11+ gate, choosing a Python
 * command, the dependency probes, and the process slot that `start_backend`
 * fills and `stop_backend` empties.
 *
 * Everything the manager asks the operating system is answered by a `Host`:
 * whether a path exists, what running a program printed, and what
 * `find_embedded_python` found. The child process itself is an opaque value.
 */
module BackendProcess {
  import opened Common

  const U32Max: nat := 0xFFFF_FFFF

  // ---------------------------------------------------------------------------
  // Parsing `python --version`

  /** The digits `s.parse::<u32>()` reads: an optional leading '+' is dropped. */
  function UnsignedDigits(s: string): string {
    if |s| > 0 && s[0] == '+' then s[1..] else s
  }

  /** `s.parse::<u32>()`: an optional '+', one or more ASCII digits, at most `u32::MAX`. */
  function ParseU32(s: string): (r: Option<nat>)
    ensures r.Some? ==> r.value <= U32Max
    ensures r.Some? ==> |s| >= 1 && (IsDigit(s[0]) || (s[0] == '+' && |s| >= 2))
  {
    var d := UnsignedDigits(s);
    if d == [] || !AllDigits(d) then None
    else if DigitsValue(d) > U32Max then None
    else Some(DigitsValue(d))
  }

  /** Every value of a `u32` parses back from its decimal text, with or without a '+'. */
  lemma ParseU32Decimal(n: nat)
    requires n <= U32Max
    ensures ParseU32(Decimal(n)) == Some(n)
    ensures ParseU32("+" + Decimal(n)) == Some(n)
  {
    DecimalValue(n);
    assert UnsignedDigits("+" + Decimal(n)) == Decimal(n);
  }

  /** A value above `u32::MAX` is rejected rather than wrapped. */
  lemma ParseU32Overflow(n: nat)
    requires n > U32Max
    ensures ParseU32(Decimal(n)) == None
  {
    DecimalValue(n);
  }

  /** `chars().take_while(is_ascii_digit)`: the longest run of digits at the start. */
  function LeadingDigits(s: string): (d: string)
    ensures |d| <= |s| && d == s[..|d|] && AllDigits(d)
    ensures |d| < |s| ==> !IsDigit(s[|d|])
  {
    if |s| > 0 && IsDigit(s[0]) then [s[0]] + LeadingDigits(s[1..]) else ""
  }

  lemma {:induction false} LeadingDigitsOfTagged(d: string, tag: string)
    requires AllDigits(d)
    requires tag == [] || !IsDigit(tag[0])
    ensures LeadingDigits(d + tag) == d
    decreases |d|
  {
    if |d| > 0 {
      LeadingDigitsOfTagged(d[1..], tag);
      assert (d + tag)[1..] == d[1..] + tag;
      assert [d[0]] + d[1..] == d;
    } else {
      assert d + tag == tag;
    }
  }

  /** The patch number read from the third dotted part: its leading digits, or 0. */
  function Patch(part: string): nat {
    ParseU32(LeadingDigits(part)).GetOr(0)
  }

  datatype PythonInfo = PythonInfo(path: string, version: string, major: nat, minor: nat, patch: nat)

  const VersionPrefix: string := "Python "

  /** `parse_python_version(version_str, path)` */
  function ParsePythonVersion(text: string, path: string): (r: Option<PythonInfo>)
    ensures r.Some? ==> r.value.path == path && VersionPrefix + r.value.version == Trim(Rust, text)
    ensures r.Some? ==>
      var parts := Split(r.value.version, '.');
      |parts| >= 2
      && ParseU32(parts[0]) == Some(r.value.major)
      && ParseU32(parts[1]) == Some(r.value.minor)
      && r.value.patch == (if |parts| >= 3 then Patch(parts[2]) else 0)
    ensures r.None? ==>
      var t := Trim(Rust, text);
      !StartsWith(t, VersionPrefix)
      || (var parts := Split(t[|VersionPrefix|..], '.');
          |parts| < 2 || ParseU32(parts[0]).None? || ParseU32(parts[1]).None?)
  {
    var t := Trim(Rust, text);
    if !StartsWith(t, VersionPrefix) then None
    else
      var versionPart := t[|VersionPrefix|..];
      assert VersionPrefix + versionPart == t;
      ParseVersionNumbers(versionPart, path)
  }

  /** The part after "Python ": major and minor must parse, patch is read leniently. */
  function ParseVersionNumbers(versionPart: string, path: string): (r: Option<PythonInfo>)
    ensures r.Some? ==> r.value.path == path && r.value.version == versionPart
    ensures r.Some? ==>
      var parts := Split(versionPart, '.');
      |parts| >= 2
      && ParseU32(parts[0]) == Some(r.value.major)
      && ParseU32(parts[1]) == Some(r.value.minor)
      && r.value.patch == (if |parts| >= 3 then Patch(parts[2]) else 0)
    ensures r.None? ==>
      var parts := Split(versionPart, '.');
      |parts| < 2 || ParseU32(parts[0]).None? || ParseU32(parts[1]).None?
  {
    var parts := Split(versionPart, '.');
    if |parts| < 2 then None
    else
      match (ParseU32(parts[0]), ParseU32(parts[1]))
      case (Some(major), Some(minor)) =>
        var patch := if |parts| >= 3 then Patch(parts[2]) else 0;
        Some(PythonInfo(path, versionPart, major, minor, patch))
      case _ => None
  }

  /** The version requirement: major 3, minor at least 11. */
  predicate MeetsRequirement(info: PythonInfo) {
    info.major == 3 && info.minor >= 11
  }

  /**
   * `is_python_311_or_higher(version_str)`: the text reads "Python 3.<minor>..."
   * with a minor version of at least 11; text that does not parse is refused.
   */
  predicate IsPython311OrHigher(text: string)
    ensures IsPython311OrHigher(text) ==>
      var t := Trim(Rust, text);
      |t| >= |VersionPrefix| && t[..|VersionPrefix|] == VersionPrefix
      && var parts := Split(t[|VersionPrefix|..], '.');
         |parts| >= 2 && ParseU32(parts[0]) == Some(3)
         && ParseU32(parts[1]).Some? && ParseU32(parts[1]).value >= 11
  {
    var info := ParsePythonVersion(text, "");
    info.Some? && MeetsRequirement(info.value)
  }

  /** What `python --version` prints: "Python a.b.c", a tag such as "rc1", a newline. */
  function VersionOutput(major: nat, minor: nat, patch: nat, tag: string): string {
    VersionPrefix + Decimal(major) + "." + Decimal(minor) + "." + Decimal(patch) + tag + "\n"
  }

  /** A tag that may follow the patch number: no dot, no whitespace, not starting with a digit. */
  predicate ReleaseTag(tag: string) {
    (tag == [] || !IsDigit(tag[0]))
    && (forall i :: 0 <= i < |tag| ==> tag[i] != '.' && !IsSpace(Rust, tag[i]))
  }

  /** Trimming the version output only drops the final newline. */
  lemma TrimVersionOutput(body: string)
    requires |body| > 0 && !IsSpace(Rust, body[0]) && !IsSpace(Rust, body[|body| - 1])
    ensures Trim(Rust, body + "\n") == body
  {
    var s := body + "\n";
    assert TrimStart(Rust, s) == s;
    assert s[..|s| - 1] == body;
  }

  /** The dotted version text of three numbers and a tag. */
  function VersionNumber(major: nat, minor: nat, patch: nat, tag: string): string {
    Decimal(major) + "." + Decimal(minor) + "." + Decimal(patch) + tag
  }

  lemma NoDotInDigits(d: string)
    requires AllDigits(d)
    ensures '.' !in d
  {
  }

  lemma SplitThree(a: string, b: string, c: string, sep: char)
    requires sep !in a && sep !in b && sep !in c
    ensures Split(a + [sep] + b + [sep] + c, sep) == [a, b, c]
  {
    SplitNoSep(c, sep);
    SplitCons(b, sep, c);
    assert a + [sep] + b + [sep] + c == a + [sep] + (b + [sep] + c);
    SplitCons(a, sep, b + [sep] + c);
  }

  lemma SplitVersionNumber(major: nat, minor: nat, patch: nat, tag: string)
    requires ReleaseTag(tag)
    ensures Split(VersionNumber(major, minor, patch, tag), '.')
      == [Decimal(major), Decimal(minor), Decimal(patch) + tag]
  {
    var a, b, c := Decimal(major), Decimal(minor), Decimal(patch);
    NoDotInDigits(a);
    NoDotInDigits(b);
    NoDotInDigits(c);
    assert '.' !in c + tag by {
      forall i | 0 <= i < |c + tag| ensures (c + tag)[i] != '.' {
        if i >= |c| { assert (c + tag)[i] == tag[i - |c|]; }
      }
    }
    assert VersionNumber(major, minor, patch, tag) == a + ['.'] + b + ['.'] + (c + tag);
    SplitThree(a, b, c + tag, '.');
  }

  lemma TrimVersionOutputOf(major: nat, minor: nat, patch: nat, tag: string)
    requires ReleaseTag(tag)
    ensures Trim(Rust, VersionOutput(major, minor, patch, tag)) == VersionPrefix + VersionNumber(major, minor, patch, tag)
  {
    var c := Decimal(patch);
    var body := VersionPrefix + VersionNumber(major, minor, patch, tag);
    assert VersionOutput(major, minor, patch, tag) == body + "\n";
    assert body[|body| - 1] == if tag == [] then c[|c| - 1] else tag[|tag| - 1];
    TrimVersionOutput(body);
  }

  /**
   * Parsing what `python --version` prints recovers all three numbers, the
   * version text after "Python ", and the path.
   */
  lemma ParseVersionOutput(major: nat, minor: nat, patch: nat, tag: string, path: string)
    requires major <= U32Max && minor <= U32Max && patch <= U32Max
    requires ReleaseTag(tag)
    ensures ParsePythonVersion(VersionOutput(major, minor, patch, tag), path)
      == Some(PythonInfo(path, VersionNumber(major, minor, patch, tag), major, minor, patch))
  {
    var version := VersionNumber(major, minor, patch, tag);
    TrimVersionOutputOf(major, minor, patch, tag);
    assert (VersionPrefix + version)[|VersionPrefix|..] == version;
    assert ParsePythonVersion(VersionOutput(major, minor, patch, tag), path) == ParseVersionNumbers(version, path);
    NumbersOfVersion(major, minor, patch, tag, path);
  }

  lemma NumbersOfVersion(major: nat, minor: nat, patch: nat, tag: string, path: string)
    requires major <= U32Max && minor <= U32Max && patch <= U32Max
    requires ReleaseTag(tag)
    ensures ParseVersionNumbers(VersionNumber(major, minor, patch, tag), path)
      == Some(PythonInfo(path, VersionNumber(major, minor, patch, tag), major, minor, patch))
  {
    SplitVersionNumber(major, minor, patch, tag);
    ParseU32Decimal(major);
    ParseU32Decimal(minor);
    ParseU32Decimal(patch);
    LeadingDigitsOfTagged(Decimal(patch), tag);
  }

  /** The gate accepts exactly 3.11 and later 3.x releases: 3.10 and 4.0 are both refused. */
  lemma GateOnVersionOutput(major: nat, minor: nat, patch: nat, tag: string)
    requires major <= U32Max && minor <= U32Max && patch <= U32Max
    requires ReleaseTag(tag)
    ensures IsPython311OrHigher(VersionOutput(major, minor, patch, tag)) <==> major == 3 && minor >= 11
  {
    ParseVersionOutput(major, minor, patch, tag, "");
  }

  // ---------------------------------------------------------------------------
  // Probing a Python command

  /** What running a program gave: it could not be spawned, or it exited. */
  datatype Run = SpawnFailed(reason: string) | Exited(success: bool, stdout: string, stderr: string)

  /** The operating system as the manager sees it. */
  datatype Host = Host(
    windows: bool,
    embedded: Option<string>,            // what `find_embedded_python` found
    run: (string, seq<string>) -> Run,   // run a program with arguments, wait for it
    pathExists: string -> bool)          // `Path::exists`

  /**
   * A command `get_python_info` can split: one without a space, or one with a
   * non-whitespace character (a command made only of whitespace that contains a
   * space makes it index an empty vector and panic).
   */
  predicate Splittable(cmd: string) {
    ' ' !in cmd || TrimStart(Rust, cmd) != []
  }

  /** A command with a space is split on whitespace into a program and its arguments. */
  function SplitCommand(cmd: string): (r: (string, seq<string>))
    requires Splittable(cmd)
    ensures ' ' !in cmd ==> r == (cmd, [])
  {
    if ' ' !in cmd then (cmd, [])
    else
      var parts := Words(cmd);
      (parts[0], parts[1..])
  }

  /** With a space, the program and its arguments are exactly the whitespace-separated words. */
  lemma SplitCommandWords(cmd: string)
    requires ' ' in cmd && Splittable(cmd)
    ensures var (program, args) := SplitCommand(cmd); program != "" && [program] + args == Words(cmd)
  {
  }

  lemma {:induction false} TakeWordAll(w: string)
    requires forall i :: 0 <= i < |w| ==> !IsSpace(Rust, w[i])
    ensures TakeWord(w) == w
    decreases |w|
  {
    if |w| > 0 {
      TakeWordAll(w[1..]);
      assert [w[0]] + w[1..] == w;
    }
  }

  lemma WordsOfWord(w: string)
    requires w != [] && forall i :: 0 <= i < |w| ==> !IsSpace(Rust, w[i])
    ensures Words(w) == [w]
    ensures Words(" " + w) == [w]
  {
    assert TrimStart(Rust, w) == w;
    TakeWordAll(w);
    assert w[|w|..] == [];
    assert Words(w) == [w];
    LeadingSpaceDropped(w);
  }

  /** A leading space does not change the words. */
  lemma LeadingSpaceDropped(s: string)
    ensures Words(" " + s) == Words(s)
  {
    assert (" " + s)[1..] == s;
    assert TrimStart(Rust, " " + s) == TrimStart(Rust, s);
  }

  /** The Windows launcher form "py <flag>" splits into "py" and the single flag. */
  lemma LauncherSplit(flag: string)
    requires flag != [] && forall i :: 0 <= i < |flag| ==> !IsSpace(Rust, flag[i])
    ensures SplitCommand("py " + flag) == ("py", [flag])
  {
    var cmd := "py " + flag;
    assert cmd[2] == ' ';
    assert TrimStart(Rust, cmd) == cmd;
    assert cmd[1..] == "y " + flag;
    assert ("y " + flag)[1..] == " " + flag;
    assert TakeWord(" " + flag) == "";
    assert TakeWord("y " + flag) == "y";
    assert TakeWord(cmd) == "py";
    assert cmd[2..] == " " + flag;
    WordsOfWord(flag);
    assert Words(cmd) == ["py"] + Words(" " + flag);
  }

  /** Where the version text comes from: stdout if it mentions Python, else stderr, else nowhere. */
  function VersionText(stdout: string, stderr: string): (t: Option<string>)
    ensures t.Some? ==> Contains(t.value, "Python")
    ensures Contains(stdout, "Python") ==> t == Some(stdout)
    ensures !Contains(stdout, "Python") && !Contains(stderr, "Python") ==> t == None
  {
    if Contains(stdout, "Python") then Some(stdout)
    else if Contains(stderr, "Python") then Some(stderr)
    else None
  }

  /** `get_python_info(python_path)`: run `<cmd> --version` and parse what it printed. */
  function GetPythonInfo(h: Host, cmd: string): (r: Option<PythonInfo>)
    requires Splittable(cmd)
    ensures r.Some? ==> r.value.path == cmd
  {
    var (program, args) := SplitCommand(cmd);
    match h.run(program, args + ["--version"])
    case SpawnFailed(_) => None
    case Exited(success, stdout, stderr) =>
      if !success then None
      else match VersionText(stdout, stderr)
        case None => None
        case Some(text) => ParsePythonVersion(text, cmd)
  }

  /** The probe `get_python_info` runs: the split command plus "--version". */
  function VersionProbe(h: Host, cmd: string): Run
    requires Splittable(cmd)
  {
    h.run(SplitCommand(cmd).0, SplitCommand(cmd).1 + ["--version"])
  }

  /**
   * A Python that prints its version, on stdout (3.4 and later) or on stderr
   * (older releases), is read correctly either way.
   */
  lemma ProbeReadsVersion(h: Host, cmd: string, major: nat, minor: nat, patch: nat, tag: string, onStderr: bool)
    requires Splittable(cmd)
    requires major <= U32Max && minor <= U32Max && patch <= U32Max && ReleaseTag(tag)
    requires
      var out := VersionOutput(major, minor, patch, tag);
      VersionProbe(h, cmd) == if onStderr then Exited(true, "", out) else Exited(true, out, "")
    ensures GetPythonInfo(h, cmd) == Some(PythonInfo(cmd, VersionNumber(major, minor, patch, tag), major, minor, patch))
  {
    var out := VersionOutput(major, minor, patch, tag);
    assert StartsWith(out, "Python");
    assert !Contains("", "Python");
    ParseVersionOutput(major, minor, patch, tag, cmd);
  }

  /** A probe that fails to spawn or exits unsuccessfully finds no Python. */
  lemma FailedProbeFindsNothing(h: Host, cmd: string)
    requires Splittable(cmd)
    requires VersionProbe(h, cmd).SpawnFailed? || !VersionProbe(h, cmd).success
    ensures GetPythonInfo(h, cmd) == None
  {
  }

  /** `cmd` runs as a Python that meets the requirement. */
  predicate Meets(h: Host, cmd: string)
    requires Splittable(cmd)
  {
    var info := GetPythonInfo(h, cmd);
    info.Some? && MeetsRequirement(info.value)
  }

  // ---------------------------------------------------------------------------
  // Choosing a Python command

  const LauncherCandidates: seq<string> := ["py -3.11", "py -3.12", "py -3.13"]
  const SystemCandidates: seq<string> := ["python3.11", "python3.12", "python3.13", "python3", "python"]

  /** The commands tried in order; on Windows the launcher forms come first. */
  function Candidates(windows: bool): (cands: seq<string>)
    ensures AllSplittable(cands)
  {
    CandidatesSplittable();
    if windows then LauncherCandidates + SystemCandidates else SystemCandidates
  }

  function Fallback(windows: bool): string {
    if windows then "python" else "python3"
  }

  lemma FallbackSplittable(windows: bool)
    ensures Splittable(Fallback(windows))
  {
    assert Fallback(windows)[0] == 'p';
    NonSpaceStartSplittable(Fallback(windows));
  }

  lemma NonSpaceStartSplittable(cmd: string)
    requires |cmd| > 0 && !IsSpace(Rust, cmd[0])
    ensures Splittable(cmd)
  {
    assert TrimStart(Rust, cmd) == cmd;
  }

  predicate AllSplittable(cands: seq<string>) {
    forall c :: c in cands ==> Splittable(c)
  }

  lemma CandidatesSplittable()
    ensures AllSplittable(LauncherCandidates + SystemCandidates) && AllSplittable(SystemCandidates)
  {
    forall c | c in LauncherCandidates + SystemCandidates ensures Splittable(c) {
      assert |c| > 0 && c[0] == 'p';
      NonSpaceStartSplittable(c);
    }
  }

  /** The embedded interpreter's path, when there is one, can be probed. */
  predicate WellFormed(h: Host) {
    h.embedded.Some? ==> Splittable(h.embedded.value)
  }

  /** A probe that passes: the command can be probed and meets the requirement. */
  function Passes(h: Host): string -> bool {
    cmd => Splittable(cmd) && Meets(h, cmd)
  }

  /** The index of the first candidate that passes, or |cands| if none does. */
  function FirstPassing(ok: string -> bool, cands: seq<string>): (i: nat)
    ensures i <= |cands|
    ensures i < |cands| ==> ok(cands[i])
    ensures forall j :: 0 <= j < i ==> !ok(cands[j])
  {
    if |cands| == 0 then 0
    else if ok(cands[0]) then 0
    else 1 + FirstPassing(ok, cands[1..])
  }

  /** The first candidate that passes, else the fallback. */
  function FirstPassingOr(ok: string -> bool, cands: seq<string>, fallback: string): (cmd: string)
    ensures
      (exists i :: 0 <= i < |cands| && cmd == cands[i] && ok(cands[i])
         && forall j :: 0 <= j < i ==> !ok(cands[j]))
      || (cmd == fallback && forall j :: 0 <= j < |cands| ==> !ok(cands[j]))
  {
    var i := FirstPassing(ok, cands);
    if i < |cands| then cands[i] else fallback
  }

  predicate EmbeddedMeets(h: Host)
    requires WellFormed(h)
  {
    h.embedded.Some? && Meets(h, h.embedded.value)
  }

  /**
   * `detect_python()`: the embedded interpreter if it meets the requirement,
   * else the first candidate that does, else the platform's generic name
   * (which may not meet it).
   */
  function DetectedPython(h: Host): (cmd: string)
    requires WellFormed(h)
    ensures EmbeddedMeets(h) ==> cmd == h.embedded.value
    ensures !EmbeddedMeets(h) ==> cmd == FirstPassingOr(Passes(h), Candidates(h.windows), Fallback(h.windows))
    ensures Splittable(cmd)
  {
    if EmbeddedMeets(h) then h.embedded.value
    else
      FallbackSplittable(h.windows);
      FirstPassingOr(Passes(h), Candidates(h.windows), Fallback(h.windows))
  }

  /** The loop of `detect_python`: probe the candidates in order until one passes. */
  method ProbeCandidates(ok: string -> bool, cands: seq<string>, fallback: string) returns (cmd: string)
    ensures cmd == FirstPassingOr(ok, cands, fallback)
  {
    for k := 0 to |cands|
      invariant forall j :: 0 <= j < k ==> !ok(cands[j])
    {
      if ok(cands[k]) {
        return cands[k];
      }
    }
    return fallback;
  }

  /** `detect_python()` */
  method DetectPython(h: Host) returns (cmd: string)
    requires WellFormed(h)
    ensures cmd == DetectedPython(h)
  {
    if h.embedded.Some? && Meets(h, h.embedded.value) {
      return h.embedded.value;
    }
    cmd := ProbeCandidates(Passes(h), Candidates(h.windows), Fallback(h.windows));
  }

  /** The caller's path when given (it need not be splittable unless it has a space). */
  predicate PathSplittable(pythonPath: Option<string>) {
    pythonPath.Some? ==> Splittable(pythonPath.value)
  }

  /** `python_path.unwrap_or_else(|| self.detect_python())` */
  function ResolvedPython(h: Host, pythonPath: Option<string>): (cmd: string)
    requires WellFormed(h)
    ensures PathSplittable(pythonPath) ==> Splittable(cmd)
    ensures pythonPath.Some? ==> cmd == pythonPath.value
  {
    match pythonPath
    case Some(p) => p
    case None => DetectedPython(h)
  }

  /** `check_python_available(python_path)`: never answers Ok(false). */
  function CheckPythonAvailable(h: Host, pythonPath: Option<string>): (r: Result<bool, string>)
    requires WellFormed(h) && PathSplittable(pythonPath)
    ensures r.Ok? <==> Meets(h, ResolvedPython(h, pythonPath))
    ensures r.Ok? ==> r.value
    ensures GetPythonInfo(h, ResolvedPython(h, pythonPath)).None? ==>
      r == Err("Could not detect Python version for: " + ResolvedPython(h, pythonPath))
    ensures var info := GetPythonInfo(h, ResolvedPython(h, pythonPath));
      info.Some? && !MeetsRequirement(info.value) ==>
        r == Err("Python version " + info.value.version + " found, but version 3.11 or higher is required")
  {
    var cmd := ResolvedPython(h, pythonPath);
    match GetPythonInfo(h, cmd)
    case Some(info) =>
      if MeetsRequirement(info) then Ok(true)
      else Err("Python version " + info.version + " found, but version 3.11 or higher is required")
    case None => Err("Could not detect Python version for: " + cmd)
  }

  // ---------------------------------------------------------------------------
  // JSON values built by the shell

  datatype Json =
    | JNull
    | JBool(b: bool)
    | JNum(n: int)
    | JStr(s: string)
    | JObject(fields: seq<(string, Json)>)

  /** `value.get(key)`: the field of an object, None for a missing key or a non-object. */
  function Get(v: Json, key: string): (r: Option<Json>)
    ensures r.Some? ==> v.JObject? && exists i :: 0 <= i < |v.fields| && v.fields[i] == (key, r.value)
  {
    if !v.JObject? then None else Lookup(v.fields, key)
  }

  function Lookup(fields: seq<(string, Json)>, key: string): (r: Option<Json>)
    ensures r.Some? ==> exists i :: 0 <= i < |fields| && fields[i] == (key, r.value)
    ensures r.None? ==> forall i :: 0 <= i < |fields| ==> fields[i].0 != key
  {
    if |fields| == 0 then None
    else if fields[0].0 == key then Some(fields[0].1)
    else
      var r := Lookup(fields[1..], key);
      assert r.Some? ==> fields[1..][0] == fields[1];
      r
  }

  function Keys(v: Json): seq<string> {
    if v.JObject? then seq(|v.fields|, i requires 0 <= i < |v.fields| => v.fields[i].0) else []
  }

  /** `value.as_bool()` */
  function AsBool(v: Json): Option<bool> {
    if v.JBool? then Some(v.b) else None
  }

  const RequiredVersion: string := "3.11+"

  /** A lookup finds the first field with the key. */
  lemma {:induction false} LookupFirst(fields: seq<(string, Json)>, i: nat, key: string)
    requires i < |fields| && fields[i].0 == key
    requires forall j :: 0 <= j < i ==> fields[j].0 != key
    ensures Lookup(fields, key) == Some(fields[i].1)
    decreases i
  {
    if i > 0 {
      LookupFirst(fields[1..], i - 1, key);
    }
  }

  /** The fields of the details object for a detected interpreter, in order. */
  function DetailFields(info: PythonInfo): seq<(string, Json)> {
    [
      ("path", JStr(info.path)),
      ("version", JStr(info.version)),
      ("major", JNum(info.major)),
      ("minor", JNum(info.minor)),
      ("patch", JNum(info.patch)),
      ("meets_requirements", JBool(MeetsRequirement(info))),
      ("required_version", JStr(RequiredVersion))]
  }

  lemma DetailFieldsVersion(info: PythonInfo)
    ensures Lookup(DetailFields(info), "version") == Some(JStr(info.version))
    ensures Lookup(DetailFields(info), "error") == None
  {
    LookupFirst(DetailFields(info), 1, "version");
  }

  lemma DetailFieldsGate(info: PythonInfo)
    ensures Lookup(DetailFields(info), "meets_requirements") == Some(JBool(MeetsRequirement(info)))
    ensures Lookup(DetailFields(info), "required_version") == Some(JStr(RequiredVersion))
  {
    var fields := DetailFields(info);
    assert forall j :: 0 <= j < 5 ==> |fields[j].0| < 16;
    LookupFirst(fields, 5, "meets_requirements");
    LookupFirst(fields, 6, "required_version");
  }

  /** The details object for a detected interpreter. */
  function DetailsOf(info: PythonInfo): (v: Json)
    ensures Get(v, "meets_requirements") == Some(JBool(MeetsRequirement(info)))
    ensures Get(v, "required_version") == Some(JStr(RequiredVersion))
    ensures Get(v, "version") == Some(JStr(info.version)) && Get(v, "error") == None
  {
    DetailFieldsVersion(info);
    DetailFieldsGate(info);
    JObject(DetailFields(info))
  }

  /** The details object when no interpreter answered. */
  function UndetectedDetails(cmd: string): (v: Json)
    ensures Get(v, "meets_requirements") == Some(JBool(false))
    ensures Get(v, "required_version") == Some(JStr(RequiredVersion))
    ensures Get(v, "error") == Some(JStr("Could not detect Python at: " + cmd))
  {
    var fields := [
      ("error", JStr("Could not detect Python at: " + cmd)),
      ("path", JStr(cmd)),
      ("meets_requirements", JBool(false)),
      ("required_version", JStr(RequiredVersion))];
    LookupFirst(fields, 0, "error");
    LookupFirst(fields, 2, "meets_requirements");
    LookupFirst(fields, 3, "required_version");
    JObject(fields)
  }

  /** `get_python_details(python_path)`: always succeeds, with `meets_requirements` a boolean. */
  function GetPythonDetails(h: Host, pythonPath: Option<string>): (r: Result<Json, string>)
    requires WellFormed(h) && PathSplittable(pythonPath)
    ensures r.Ok?
    ensures Get(r.value, "meets_requirements") == Some(JBool(Meets(h, ResolvedPython(h, pythonPath))))
    ensures Get(r.value, "required_version") == Some(JStr(RequiredVersion))
    ensures Get(r.value, "error").Some? <==> GetPythonInfo(h, ResolvedPython(h, pythonPath)).None?
  {
    var cmd := ResolvedPython(h, pythonPath);
    match GetPythonInfo(h, cmd)
    case Some(info) => Ok(DetailsOf(info))
    case None => Ok(UndetectedDetails(cmd))
  }

  // ---------------------------------------------------------------------------
  // Rust's `{:?}` of a path or string

  /** The lower-case hexadecimal digit of `d`. */
  function HexDigit(d: nat): char
    requires d < 16
  {
    "0123456789abcdef"[d]
  }

  /** The value of a lower-case hexadecimal digit, if `c` is one. */
  function HexValue(c: char): Option<nat> {
    if '0' <= c <= '9' then Some(c as nat - '0' as nat)
    else if 'a' <= c <= 'f' then Some(c as nat - 'a' as nat + 10)
    else None
  }

  /** `n` in lower-case hexadecimal without leading zeros, for a code point below 0x100. */
  function Hex(n: nat): (r: string)
    requires n < 0x100
    ensures 1 <= |r| <= 2 && '}' !in r
  {
    if n < 16 then [HexDigit(n)] else [HexDigit(n / 16), HexDigit(n % 16)]
  }

  /** The ASCII control characters Rust prints as `\u{..}`: all but the named escapes. */
  predicate HexEscaped(c: char) {
    (c < ' ' || c == '\U{007F}') && c !in "\t\r\n\0"
  }

  /**
   * One character as Rust's `Debug` for a path prints it: each character
   * goes through `char::escape_debug`, which escapes both kinds of quote.
   */
  function DebugChar(c: char): (r: string)
    ensures r == [c] <==> c !in "\"'\\" && ' ' <= c && c != '\U{007F}'
    ensures r != [c] ==> |r| >= 2 && r[0] == '\\'
  {
    if c == '"' then "\\\""
    else if c == '\'' then "\\'"
    else if c == '\\' then "\\\\"
    else if c == '\t' then "\\t"
    else if c == '\r' then "\\r"
    else if c == '\n' then "\\n"
    else if c == '\0' then "\\0"
    else if HexEscaped(c) then "\\u{" + Hex(c as nat) + "}"
    else [c]
  }

  /** Every character of `s` through DebugChar. */
  function DebugEscape(s: string): string {
    if s == [] then [] else DebugChar(s[0]) + DebugEscape(s[1..])
  }

  /** `{:?}` of a path: the escaped text in double quotes. */
  function DebugPath(p: string): (r: string)
    ensures |r| >= 2 && r[0] == '"' && r[|r| - 1] == '"'
    ensures DebugUnescape(r[1..|r| - 1]) == Some(p)
  {
    DebugRoundTrip(p);
    var r := "\"" + DebugEscape(p) + "\"";
    assert r[1..|r| - 1] == DebugEscape(p);
    r
  }

  /** `c` in front of the text read back, when there is one. */
  function Prepend(c: char, o: Option<string>): Option<string> {
    match o
    case Some(rest) => Some([c] + rest)
    case None => None
  }

  /** The character a two-character escape `\d` stands for. */
  function NamedEscape(d: char): Option<char> {
    if d == '"' then Some('"')
    else if d == '\'' then Some('\'')
    else if d == '\\' then Some('\\')
    else if d == 't' then Some('\t')
    else if d == 'r' then Some('\r')
    else if d == 'n' then Some('\n')
    else if d == '0' then Some('\0')
    else None
  }

  /** The character a `\u{h}` or `\u{hh}` escape at the front of `t` stands for, and its length. */
  function UnicodeEscape(t: string): (r: Option<(char, nat)>)
    ensures r.Some? ==> 5 <= r.value.1 <= |t|
  {
    if |t| >= 5 && t[2] == '{' && t[4] == '}' && HexValue(t[3]).Some? then
      Some((HexValue(t[3]).value as char, 5))
    else if |t| >= 6 && t[2] == '{' && t[5] == '}' && HexValue(t[3]).Some? && HexValue(t[4]).Some? then
      Some(((16 * HexValue(t[3]).value + HexValue(t[4]).value) as char, 6))
    else None
  }

  /** Reads back what DebugEscape wrote; None on text it cannot have written. */
  function DebugUnescape(t: string): Option<string>
    decreases |t|
  {
    if t == [] then Some([])
    else if t[0] != '\\' then Prepend(t[0], DebugUnescape(t[1..]))
    else if |t| < 2 then None
    else if t[1] == 'u' then
      match UnicodeEscape(t)
      case Some((c, n)) => Prepend(c, DebugUnescape(t[n..]))
      case None => None
    else
      match NamedEscape(t[1])
      case Some(c) => Prepend(c, DebugUnescape(t[2..]))
      case None => None
  }

  /** HexValue reads back HexDigit. */
  lemma HexDigitBack(d: nat)
    requires d < 16
    ensures HexValue(HexDigit(d)) == Some(d)
  {
  }

  /** Reading a `\u{..}` escape of a code point below 0x100 back from the front of any text. */
  lemma UnicodeEscapeBack(n: nat, rest: string)
    requires n < 0x100
    ensures UnicodeEscape("\\u{" + Hex(n) + "}" + rest) == Some((n as char, |Hex(n)| + 4))
  {
    var t := "\\u{" + Hex(n) + "}" + rest;
    if n < 16 {
      assert t == ['\\', 'u', '{', HexDigit(n), '}'] + rest;
      HexDigitBack(n);
    } else {
      assert t == ['\\', 'u', '{', HexDigit(n / 16), HexDigit(n % 16), '}'] + rest;
      HexDigitBack(n / 16);
      HexDigitBack(n % 16);
    }
  }

  /** Reading one `\u{..}` escape back from the front of any text. */
  lemma DebugHexBack(c: char, rest: string)
    requires HexEscaped(c)
    ensures DebugUnescape(DebugChar(c) + rest) == Prepend(c, DebugUnescape(rest))
  {
    var n := c as nat;
    var t := "\\u{" + Hex(n) + "}" + rest;
    assert DebugChar(c) + rest == t;
    UnicodeEscapeBack(n, rest);
    assert t[|Hex(n)| + 4..] == rest;
  }

  /** Reading one escaped character back from the front of any text. */
  lemma DebugCharBack(c: char, rest: string)
    ensures DebugUnescape(DebugChar(c) + rest) == Prepend(c, DebugUnescape(rest))
  {
    var t := DebugChar(c) + rest;
    if HexEscaped(c) {
      DebugHexBack(c, rest);
    } else if c in "\"'\\\t\r\n\0" {
      assert t[2..] == rest;
    } else {
      assert t[1..] == rest;
    }
  }

  /** Escaping loses nothing: reading the escaped text back gives the original. */
  lemma {:induction false} DebugRoundTrip(s: string)
    ensures DebugUnescape(DebugEscape(s)) == Some(s)
  {
    if s != [] {
      DebugRoundTrip(s[1..]);
      DebugCharBack(s[0], DebugEscape(s[1..]));
      assert [s[0]] + s[1..] == s;
    }
  }

  /** No quote of either kind, backslash or ASCII control character. */
  predicate PlainText(s: string) {
    forall i :: 0 <= i < |s| ==> s[i] !in "\"'\\" && ' ' <= s[i] && s[i] != '\U{007F}'
  }

  /** Plain text is printed as it is. */
  lemma {:induction false} DebugPlain(s: string)
    requires PlainText(s)
    ensures DebugEscape(s) == s
  {
    if s != [] {
      DebugPlain(s[1..]);
      assert [s[0]] + s[1..] == s;
    }
  }

  /** Escaping works character by character, so it distributes over concatenation. */
  lemma {:induction false} DebugConcat(a: string, b: string)
    ensures DebugEscape(a + b) == DebugEscape(a) + DebugEscape(b)
  {
    if a != [] {
      assert (a + b)[0] == a[0] && (a + b)[1..] == a[1..] + b;
      calc {
        DebugEscape(a + b);
        DebugChar(a[0]) + DebugEscape(a[1..] + b);
        { DebugConcat(a[1..], b); }
        DebugChar(a[0]) + (DebugEscape(a[1..]) + DebugEscape(b));
      }
    } else {
      assert a + b == b;
    }
  }

  /**
   * A Windows path `a\b` with plain components: the separator is doubled in
   * the message, so the text differs from the path itself.
   */
  lemma DebugWindowsPath(a: string, b: string)
    requires PlainText(a) && PlainText(b)
    ensures DebugPath(a + "\\" + b) == "\"" + a + "\\\\" + b + "\""
  {
    assert DebugEscape("\\") == "\\\\" by {
      assert DebugEscape("\\") == DebugChar('\\') + DebugEscape([]);
    }
    calc {
      DebugEscape(a + "\\" + b);
      { DebugConcat(a + "\\", b); DebugConcat(a, "\\"); }
      DebugEscape(a) + DebugEscape("\\") + DebugEscape(b);
      { DebugPlain(a); DebugPlain(b); }
      a + "\\\\" + b;
    }
  }

  const ImportCheck: seq<string> := ["-c", "import fastapi, uvicorn"]

  /** `check_requirements(python_path, requirements_path)` */
  function CheckRequirements(h: Host, pythonPath: Option<string>, requirementsPath: string): (r: Result<bool, string>)
    requires WellFormed(h)
    ensures !h.pathExists(requirementsPath) ==> r == Err("Requirements file not found: " + DebugPath(requirementsPath))
    ensures r.Ok? ==>
      var run := h.run(ResolvedPython(h, pythonPath), ImportCheck);
      h.pathExists(requirementsPath) && run.Exited? && r.value == run.success
    ensures h.pathExists(requirementsPath) ==>
      match h.run(ResolvedPython(h, pythonPath), ImportCheck)
      case SpawnFailed(e) => r == Err("Failed to check requirements: " + e)
      case Exited(success, _, _) => r == Ok(success)
  {
    var cmd := ResolvedPython(h, pythonPath);
    if !h.pathExists(requirementsPath) then Err("Requirements file not found: " + DebugPath(requirementsPath))
    else match h.run(cmd, ImportCheck)
      case SpawnFailed(e) => Err("Failed to check requirements: " + e)
      case Exited(success, _, _) => Ok(success)
  }

  /** `install_requirements(python_path, requirements_path)` */
  function InstallRequirements(h: Host, pythonPath: Option<string>, requirementsPath: string): (r: Result<string, string>)
    requires WellFormed(h)
    ensures !h.pathExists(requirementsPath) ==> r == Err("Requirements file not found: " + DebugPath(requirementsPath))
    ensures r.Ok? <==>
      h.pathExists(requirementsPath)
      && var run := h.run(ResolvedPython(h, pythonPath), ["-m", "pip", "install", "-r", requirementsPath]);
         run.Exited? && run.success
    ensures r.Ok? ==> r.value == "Requirements installed successfully"
    ensures h.pathExists(requirementsPath) ==>
      match h.run(ResolvedPython(h, pythonPath), ["-m", "pip", "install", "-r", requirementsPath])
      case SpawnFailed(e) => r == Err("Failed to install requirements: " + e)
      case Exited(success, _, stderr) => !success ==> r == Err("Failed to install requirements: " + stderr)
  {
    var cmd := ResolvedPython(h, pythonPath);
    if !h.pathExists(requirementsPath) then Err("Requirements file not found: " + DebugPath(requirementsPath))
    else match h.run(cmd, ["-m", "pip", "install", "-r", requirementsPath])
      case SpawnFailed(e) => Err("Failed to install requirements: " + e)
      case Exited(success, _, stderr) =>
        if success then Ok("Requirements installed successfully")
        else Err("Failed to install requirements: " + stderr)
  }

  // ---------------------------------------------------------------------------
  // Paths

  /** `dir.join(name)` for a relative file name. */
  function JoinPath(dir: string, name: string): (r: string)
    ensures dir <= r && |dir| + |name| <= |r| <= |dir| + 1 + |name| && r[|r| - |name|..] == name
    ensures dir != "" ==> r[|r| - |name| - 1] == '/'
  {
    if dir == "" || dir[|dir| - 1] == '/' then dir + name else dir + "/" + name
  }

  /** The path starts at the root. */
  predicate HasRoot(p: string) {
    |p| > 0 && p[0] == '/'
  }

  /** A relative path whose first component is `.`, which `components()` keeps. */
  predicate LeadingCurDir(p: string) {
    !HasRoot(p) && |p| > 0 && p[0] == '.' && (|p| == 1 || p[1] == '/')
  }

  /** The length of what comes before the first ordinary component: the root or a leading `.`. */
  function BodyStart(p: string): (r: nat)
    ensures r <= |p|
  {
    if HasRoot(p) || LeadingCurDir(p) then 1 else 0
  }

  /** The last character of `q` ends a `.` component that starts after `start`. */
  predicate EndsInCurDir(q: string, start: nat)
    requires start < |q|
  {
    q[|q| - 1] == '.' && (|q| - 1 == start || q[|q| - 2] == '/')
  }

  /**
   * Drop trailing separators and `.` components after `start`, as
   * `Components::next_back` and `as_path` skip them.
   */
  function TrimBack(q: string, start: nat): (r: string)
    requires start <= |q|
    ensures start <= |r| <= |q| && r == q[..|r|]
    decreases |q|
  {
    if |q| == start then q
    else if q[|q| - 1] == '/' || EndsInCurDir(q, start) then
      var r := TrimBack(q[..|q| - 1], start);
      assert q[..|q| - 1][..|r|] == q[..|r|];
      r
    else q
  }

  /** Drop the last component, back to (not including) the separator before it. */
  function DropComponent(q: string, start: nat): (r: string)
    requires start <= |q|
    ensures start <= |r| <= |q| && r == q[..|r|]
    decreases |q|
  {
    if |q| == start || q[|q| - 1] == '/' then q
    else
      var r := DropComponent(q[..|q| - 1], start);
      assert q[..|q| - 1][..|r|] == q[..|r|];
      r
  }

  /**
   * `Path::parent` with '/' as the separator: the path without its last
   * component, or None at the root or for the empty path.
   */
  function Parent(p: string): (r: Option<string>)
    ensures r.Some? ==> |r.value| < |p| && r.value == p[..|r.value|]
  {
    var start := BodyStart(p);
    var q := TrimBack(p, start);
    if |q| > start then
      var r := TrimBack(DropComponent(q, start), start);
      assert DropComponent(q, start)[..|r|] == p[..|r|];
      Some(r)
    else if LeadingCurDir(p) then Some("")
    else None
  }

  /**
   * `backend_dir.parent()`, falling back to `backend_dir` itself when it has
   * none: always a leading part of the directory's own text.
   */
  function ProjectRoot(dir: string): (r: string)
    ensures |r| <= |dir| && r == dir[..|r|]
    ensures r != dir <==> Parent(dir).Some?
  {
    match Parent(dir)
    case Some(q) => q
    case None => dir
  }

  /** Appending to a non-empty path leaves its root or leading `.` as it was. */
  lemma BodyStartOfLonger(p: string, t: string)
    requires p != "" && (|p| == 1 && t != [] ==> t[0] == '/')
    ensures BodyStart(p + t) == BodyStart(p)
  {
    var q := p + t;
    assert q[0] == p[0];
    assert |p| > 1 ==> q[1] == p[1];
  }

  /** A trailing separator changes nothing: `a/b/` has the parent of `a/b`. */
  lemma ParentIgnoresTrailingSlash(p: string)
    requires p != ""
    ensures Parent(p + "/") == Parent(p)
  {
    BodyStartOfLonger(p, "/");
    assert (p + "/")[..|p|] == p;
  }

  /** A name without separators that `components()` keeps as an ordinary component. */
  predicate PlainComponent(name: string) {
    name != "" && name != "." && name != ".." && '/' !in name
  }

  /** Dropping the last component of `prefix + name` leaves `prefix` when `prefix` ends in a separator. */
  lemma {:induction false} DropComponentOf(prefix: string, name: string, start: nat)
    requires start <= |prefix| && prefix != [] && prefix[|prefix| - 1] == '/' && '/' !in name
    ensures DropComponent(prefix + name, start) == prefix
    decreases |name|
  {
    if name != [] {
      var q := prefix + name;
      assert q[|q| - 1] == name[|name| - 1];
      assert q[..|q| - 1] == prefix + name[..|name| - 1];
      DropComponentOf(prefix, name[..|name| - 1], start);
    } else {
      assert prefix + name == prefix;
    }
  }

  /** A path ending in an ordinary component is not trimmed. */
  lemma TrimBackOfChild(dir: string, name: string, start: nat)
    requires start <= |dir| + 1 && PlainComponent(name)
    ensures TrimBack(dir + "/" + name, start) == dir + "/" + name
  {
    var p := dir + "/" + name;
    assert p[|p| - 1] == name[|name| - 1];
    assert |name| > 1 ==> p[|p| - 2] == name[|name| - 2];
  }

  /** A trailing separator is trimmed first. */
  lemma TrimBackSlash(dir: string, start: nat)
    requires start <= |dir|
    ensures TrimBack(dir + "/", start) == TrimBack(dir, start)
  {
    assert (dir + "/")[..|dir|] == dir;
  }

  /** `Parent` of a path that trimming leaves alone. */
  lemma ParentUntrimmed(p: string)
    requires BodyStart(p) < |p| && TrimBack(p, BodyStart(p)) == p
    ensures Parent(p) == Some(TrimBack(DropComponent(p, BodyStart(p)), BodyStart(p)))
  {
  }

  /** The parent of `dir/name` is `dir`, less any trailing separators and `.` components. */
  lemma ParentOfChild(dir: string, name: string)
    requires dir != "" && PlainComponent(name)
    ensures Parent(dir + "/" + name) == Some(TrimBack(dir, BodyStart(dir)))
  {
    var p := dir + "/" + name;
    var start := BodyStart(dir);
    BodyStartOfLonger(dir, "/" + name);
    assert p == dir + ("/" + name);
    TrimBackOfChild(dir, name, start);
    ParentUntrimmed(p);
    DropComponentOf(dir + "/", name, start);
    TrimBackSlash(dir, start);
  }

  /** The parent of `/name` is the root. */
  lemma ParentOfRootChild(name: string)
    requires PlainComponent(name)
    ensures Parent("/" + name) == Some("/")
  {
    var p := "/" + name;
    assert p == "" + "/" + name;
    TrimBackOfChild("", name, 1);
    ParentUntrimmed(p);
    DropComponentOf("/", name, 1);
  }

  /** The parent of `dir.join(name)` is `dir`, whether or not `dir` ends in a separator. */
  lemma ParentOfJoin(dir: string, name: string)
    requires dir != "" && PlainComponent(name)
    ensures Parent(JoinPath(dir, name)) == Some(TrimBack(dir, BodyStart(dir)))
  {
    if dir[|dir| - 1] != '/' {
      ParentOfChild(dir, name);
    } else if |dir| == 1 {
      ParentOfRootChild(name);
      assert JoinPath(dir, name) == "/" + name;
    } else {
      var d := dir[..|dir| - 1];
      assert dir == d + "/";
      ParentOfChild(d, name);
      BodyStartOfLonger(d, "/");
      TrimBackSlash(d, BodyStart(d));
    }
  }

  /** A `backend_dir` given with a trailing separator still has the project root above it. */
  lemma TrailingSlashProjectRoot(root: string, name: string)
    requires root != "" && PlainComponent(name)
    ensures ProjectRoot(root + "/" + name + "/") == TrimBack(root, BodyStart(root))
  {
    ParentIgnoresTrailingSlash(root + "/" + name);
    ParentOfChild(root, name);
  }

  const BackendScript: string := "app_v2.py"

  // ---------------------------------------------------------------------------
  // The process slot

  /** A running backend process, as far as the model is concerned. */
  datatype Child = Child(pid: nat)

  const AlreadyRunning: string := "Backend already running"
  const Stopped: string := "Backend stopped"
  const NotRunning: string := "Backend not running"

  /** `verify_python_executable(cmd)`: `<cmd> --version` runs and exits successfully. */
  predicate PythonRuns(h: Host, cmd: string) {
    var run := h.run(cmd, ["--version"]);
    run.Exited? && run.success
  }

  /** The first of the three checks `start_backend` makes before spawning that fails. */
  function StartCheckFailure(h: Host, cmd: string, backendDir: string): (e: Option<string>)
    ensures e.None? <==> PythonRuns(h, cmd) && h.pathExists(backendDir) && h.pathExists(JoinPath(backendDir, BackendScript))
    ensures !PythonRuns(h, cmd) ==> e == Some("Python executable not valid or not found: " + cmd)
    ensures PythonRuns(h, cmd) && !h.pathExists(backendDir) ==>
      e == Some("Backend directory not found: " + DebugPath(backendDir))
    ensures PythonRuns(h, cmd) && h.pathExists(backendDir) && !h.pathExists(JoinPath(backendDir, BackendScript)) ==>
      e == Some("Backend script not found: " + DebugPath(JoinPath(backendDir, BackendScript)))
  {
    if !PythonRuns(h, cmd) then Some("Python executable not valid or not found: " + cmd)
    else if !h.pathExists(backendDir) then Some("Backend directory not found: " + DebugPath(backendDir))
    else if !h.pathExists(JoinPath(backendDir, BackendScript)) then
      Some("Backend script not found: " + DebugPath(JoinPath(backendDir, BackendScript)))
    else None
  }

  class BackendManager {
    /** The child process, when the manager started one and has not stopped it. */
    var process: Option<Child>
    const backendPort: nat

    constructor(port: nat)
      requires port <= 0xFFFF
      ensures process == None && backendPort == port
    {
      process := None;
      backendPort := port;
    }

    /**
     * `start_backend(python_path, backend_dir)`. `spawn` is what spawning
     * uvicorn gave: the child, or the error text.
     */
    method StartBackend(h: Host, pythonPath: Option<string>, backendDir: string, spawn: Result<Child, string>)
      returns (r: Result<string, string>)
      requires WellFormed(h)
      modifies this`process
      ensures r.Ok? <==> process.Some?
      ensures old(process).Some? ==> r == Ok(AlreadyRunning) && process == old(process)
      ensures old(process).None? ==>
        var cmd := if pythonPath.Some? then pythonPath.value else DetectedPython(h);
        match StartCheckFailure(h, cmd, backendDir)
        case Some(e) => r == Err(e) && process == None
        case None =>
          match spawn
          case Err(e) =>
            r == Err("Failed to start backend: " + e + ". Python path: " + cmd
                     + ", Project root: " + DebugPath(ProjectRoot(backendDir)))
            && process == None
          case Ok(child) =>
            r == Ok("Backend started on port " + Decimal(backendPort) + " using Python: " + cmd)
            && process == Some(child)
    {
      if process.Some? {
        return Ok(AlreadyRunning);
      }
      var cmd: string;
      if pythonPath.Some? {
        cmd := pythonPath.value;
      } else {
        cmd := DetectPython(h);
      }
      var failure := StartCheckFailure(h, cmd, backendDir);
      if failure.Some? {
        return Err(failure.value);
      }
      var projectRoot := ProjectRoot(backendDir);
      if spawn.Err? {
        return Err("Failed to start backend: " + spawn.error + ". Python path: " + cmd
                   + ", Project root: " + DebugPath(projectRoot));
      }
      process := Some(spawn.value);
      r := Ok("Backend started on port " + Decimal(backendPort) + " using Python: " + cmd);
    }

    /**
     * `stop_backend()`. The child is taken out of the slot before it is
     * killed, so the slot is empty afterwards even when the kill fails.
     */
    method StopBackend(killError: Option<string>) returns (r: Result<string, string>)
      modifies this`process
      ensures process == None
      ensures old(process).None? ==> r == Ok(NotRunning)
      ensures old(process).Some? && killError.None? ==> r == Ok(Stopped)
      ensures old(process).Some? && killError.Some? ==>
        r == Err("Failed to kill backend process: " + killError.value)
    {
      var taken := process;
      process := None;
      if taken.Some? {
        if killError.Some? {
          return Err("Failed to kill backend process: " + killError.value);
        }
        return Ok(Stopped);
      } else {
        return Ok(NotRunning);
      }
    }

    /** `check_status()`: whether the slot holds a process. */
    method CheckStatus() returns (running: bool)
      ensures running <==> process.Some?
    {
      running := process.Some?;
    }
  }
}
