/**
 * The value helpers of the login manager: file-system queries over a map of
 * existing paths, value sanitising and boolean parsing, list membership, the
 * ANSI colour conversion, command preparation for a user and the parent
 * directory of a file to be created.
 */
module Utils {
  import opened GoStrings
  import opened Platform

  /** `fileExists`: `os.Stat` succeeds exactly for the paths present in `files`. */
  predicate FileExists(files: map<string, bv32>, path: string) {
    path in files
  }

  /** `fileIsExecutable`: the path exists and its owner-execute bit (octal 0100) is set. */
  predicate FileIsExecutable(files: map<string, bv32>, path: string) {
    path in files && files[path] & 0x40 == 0x40
  }

  /** Removing a path makes it vanish for `fileExists` and leaves every other path as it was. */
  lemma FileExistsAfterRemove(files: map<string, bv32>, path: string, other: string)
    ensures !FileExists(files - {path}, path)
    ensures other != path ==> (FileExists(files - {path}, other) <==> FileExists(files, other))
  {
  }

  /**
   * An executable path exists, and whether a path is executable depends only
   * on the owner-execute bit of its own mode.
   */
  lemma FileIsExecutableBit(files: map<string, bv32>, path: string, mode: bv32)
    ensures FileIsExecutable(files, path) ==> FileExists(files, path)
    ensures FileIsExecutable(files[path := mode], path) <==> mode & 0x40 != 0
    ensures !FileExists(files, path) ==> !FileIsExecutable(files, path)
  {
  }

  /**
   * `sanitizeValue`: the default, as given, for the empty value; otherwise the
   * value with its surrounding whitespace removed.
   */
  function SanitizeValue(value: string, defaultValue: string): (r: string)
    ensures value == "" ==> r == defaultValue
    ensures value != "" ==> Trimmed(r) && (r == "" <==> AllSpace(value))
  {
    if value == "" then defaultValue else TrimSpace(value)
  }

  /** A value that is present but blank sanitises to "", never to the default. */
  lemma SanitizeBlank(value: string, defaultValue: string)
    requires value != "" && AllSpace(value)
    ensures SanitizeValue(value, defaultValue) == ""
  {
  }

  /** A non-empty value padded by whitespace sanitises to the value itself. */
  lemma SanitizePadded(a: string, v: string, b: string, defaultValue: string)
    requires AllSpace(a) && AllSpace(b) && Trimmed(v) && v != ""
    ensures SanitizeValue(a + v + b, defaultValue) == v
  {
    TrimSpaceOfPadded(a, v, b);
  }

  const TrueSpellings: set<string> := {"1", "t", "T", "TRUE", "true", "True"}
  const FalseSpellings: set<string> := {"0", "f", "F", "FALSE", "false", "False"}

  /** Go's `strconv.ParseBool`: the accepted spellings of true and false, anything else an error. */
  function GoParseBool(s: string): (r: Option<bool>)
    ensures r == Some(true) <==> s in TrueSpellings
    ensures r == Some(false) <==> s in FalseSpellings
  {
    if s in TrueSpellings then Some(true)
    else if s in FalseSpellings then Some(false)
    else None
  }

  /** Go's `strconv.FormatBool`. */
  function FormatBool(b: bool): string {
    if b then "true" else "false"
  }

  /** What `strconv.FormatBool` writes, `strconv.ParseBool` reads back. */
  lemma ParseFormatBool(b: bool)
    ensures GoParseBool(FormatBool(b)) == Some(b)
  {
  }

  /** `parseBool`: the sanitised value parsed as a boolean, false when it does not parse. */
  function ParseBool(strBool: string, defaultValue: string): (r: bool)
    ensures r <==> SanitizeValue(strBool, defaultValue) in TrueSpellings
  {
    var parsed := GoParseBool(SanitizeValue(strBool, defaultValue));
    if parsed.None? then false else parsed.value
  }

  /** An empty value falls back to the default, which is parsed without trimming. */
  lemma ParseBoolOfEmpty(defaultValue: string)
    ensures ParseBool("", defaultValue) <==> defaultValue in TrueSpellings
  {
  }

  /** A present but blank value is false whatever the default says. */
  lemma ParseBoolOfBlank(strBool: string, defaultValue: string)
    requires strBool != "" && AllSpace(strBool)
    ensures !ParseBool(strBool, defaultValue)
  {
    SanitizeBlank(strBool, defaultValue);
  }

  /** A formatted boolean surrounded by whitespace reads back as itself. */
  lemma ParseBoolPadded(a: string, b: bool, c: string, defaultValue: string)
    requires AllSpace(a) && AllSpace(c)
    ensures ParseBool(a + FormatBool(b) + c, defaultValue) == b
  {
    SanitizePadded(a, FormatBool(b), c, defaultValue);
  }

  /** `contains`: a linear scan with early return for an element equal to `value`. */
  method Contains(list: seq<string>, value: string) returns (found: bool)
    ensures found <==> value in list
    ensures found <==> exists i | 0 <= i < |list| :: list[i] == value
  {
    var i := 0;
    while i < |list|
      invariant 0 <= i <= |list|
      invariant value !in list[..i]
    {
      if list[i] == value {
        return true;
      }
      assert list[..i + 1] == list[..i] + [list[i]];
      i := i + 1;
    }
    assert list[..i] == list;
    return false;
  }

  /** The colour names `convertColor` knows, in the order of their SGR codes 30..37. */
  const ColorNames: seq<string> := ["BLACK", "RED", "GREEN", "YELLOW", "BLUE", "MAGENTA", "CYAN", "WHITE"]

  /** The `switch` of `convertColor`: 0 for the empty name, 30..37 for the known colours. */
  function ColorNumber(colorName: string): (r: Option<nat>)
    ensures r == Some(0) <==> colorName == ""
    ensures r.None? <==> colorName != "" && colorName !in ColorNames
    ensures forall i :: 0 <= i < |ColorNames| && colorName == ColorNames[i] ==> r == Some(30 + i)
  {
    if colorName == "" then Some(0)
    else if colorName == "BLACK" then Some(30)
    else if colorName == "RED" then Some(31)
    else if colorName == "GREEN" then Some(32)
    else if colorName == "YELLOW" then Some(33)
    else if colorName == "BLUE" then Some(34)
    else if colorName == "MAGENTA" then Some(35)
    else if colorName == "CYAN" then Some(36)
    else if colorName == "WHITE" then Some(37)
    else None
  }

  /** The colour name once upper-cased and stripped of every `LIGHT_`. */
  function BaseColorName(name: string): string {
    ReplaceAll(ToUpper(name), "LIGHT_", "")
  }

  /** The SGR colour parameters: 30..37 foreground, 40..47 background, and their light variants 90..97 and 100..107. */
  predicate SgrColor(n: nat, isForeground: bool) {
    if isForeground then 30 <= n <= 37 || 90 <= n <= 97 else 40 <= n <= 47 || 100 <= n <= 107
  }

  /**
   * `convertColor`: the decimal SGR parameter for a colour name, "0" when the
   * name is empty once `LIGHT_` is removed, "" for an unknown name.
   */
  function ConvertColor(name: string, isForeground: bool): (r: string)
    ensures r == "" <==> BaseColorName(name) != "" && BaseColorName(name) !in ColorNames
    ensures BaseColorName(name) == "" ==> r == "0"
    ensures r != "" ==> (forall k :: 0 <= k < |r| ==> IsDigit(r[k]))
    ensures r != "" && BaseColorName(name) != "" ==> (forall k :: 0 <= k < |r| ==> IsDigit(r[k])) && SgrColor(DecimalValue(r), isForeground)
  {
    var colorName := ToUpper(name);
    var isLight := HasPrefix(colorName, "LIGHT_");
    var colorName := ReplaceAll(colorName, "LIGHT_", "");
    match ColorNumber(colorName)
    case None => ""
    case Some(colorNumber) =>
      var n := if colorNumber > 0 then colorNumber + (if !isForeground then 10 else 0) + (if isLight then 60 else 0) else colorNumber;
      ItoaRoundTrip(n);
      Itoa(n)
  }

  /** No colour name contains `LIGHT_`, because none contains an underscore. */
  lemma NoLightInColor(c: string)
    requires c in ColorNames
    ensures !ContainsStr(c, "LIGHT_")
  {
    assert '_' !in c;
    forall i | 0 <= i <= |c| - 6 ensures !OccursAt(c, "LIGHT_", i) {
      assert c[i + 5] == c[i..i + 6][5];
    }
  }

  /** Upper-casing and stripping `LIGHT_` recovers the colour, and the prefix is seen exactly when present. */
  lemma NamedColorParts(i: nat, light: bool)
    requires i < |ColorNames|
    ensures var name := (if light then "LIGHT_" else "") + ColorNames[i];
      BaseColorName(name) == ColorNames[i] && (HasPrefix(ToUpper(name), "LIGHT_") <==> light)
  {
    var c := ColorNames[i];
    if light {
      LightColorParts(c);
      assert (if light then "LIGHT_" else "") + c == "LIGHT_" + c;
    } else {
      PlainColorParts(c);
      assert (if light then "LIGHT_" else "") + c == c;
    }
  }

  lemma LightColorParts(c: string)
    requires c in ColorNames
    ensures BaseColorName("LIGHT_" + c) == c && HasPrefix(ToUpper("LIGHT_" + c), "LIGHT_")
  {
    UpperLightName(c);
    NoLightInColor(c);
    ReplaceAllAbsent(c, "LIGHT_", "");
    ReplaceAllLeading("LIGHT_", c, "");
    assert ("LIGHT_" + c)[..6] == "LIGHT_";
  }

  /** A light colour name is already upper-case. */
  lemma UpperLightName(c: string)
    requires c in ColorNames
    ensures ToUpper("LIGHT_" + c) == "LIGHT_" + c
  {
    var name := "LIGHT_" + c;
    assert IsUpper(c);
    assert forall k :: 0 <= k < |name| ==> name[k] == if k < 6 then "LIGHT_"[k] else c[k - 6];
    ToUpperOfUpper(name);
  }

  lemma PlainColorParts(c: string)
    requires c in ColorNames
    ensures BaseColorName(c) == c && !HasPrefix(ToUpper(c), "LIGHT_")
  {
    assert IsUpper(c);
    ToUpperOfUpper(c);
    NoLightInColor(c);
    ReplaceAllAbsent(c, "LIGHT_", "");
    if |c| >= 6 {
      assert !OccursAt(c, "LIGHT_", 0);
      assert c[0..6] == c[..6];
    }
  }

  /**
   * Every known colour, optionally behind `LIGHT_`, converts to 30 + its index,
   * plus 10 as a background and plus 60 when light.
   */
  lemma ConvertNamedColor(i: nat, light: bool, isForeground: bool)
    requires i < |ColorNames|
    ensures var name := (if light then "LIGHT_" else "") + ColorNames[i];
      ConvertColor(name, isForeground) == Itoa(30 + i + (if isForeground then 0 else 10) + (if light then 60 else 0))
  {
    NamedColorParts(i, light);
    assert ColorNumber(ColorNames[i]) == Some(30 + i);
  }

  /** The empty name gives "0" whatever the ground. */
  lemma ConvertEmptyColor(isForeground: bool)
    ensures ConvertColor("", isForeground) == "0"
  {
    assert ToUpper("") == "";
    assert ReplaceAll("", "LIGHT_", "") == "";
  }

  /** Colour names are matched without regard to case. */
  lemma ConvertColorCaseInsensitive(name: string, isForeground: bool)
    ensures ConvertColor(name, isForeground) == ConvertColor(ToUpper(name), isForeground)
  {
    ToUpperIsUpper(name);
    ToUpperOfUpper(ToUpper(name));
  }

  /**
   * `cmdAsUser`: a command to run as the user. A name holding spaces is split
   * at them; its first token becomes the program and the other tokens go
   * before the given arguments. The user's environment and credentials are
   * attached.
   */
  method CmdAsUser(usr: SysUser, name: string, args: seq<string>) returns (cmd: Cmd)
    ensures |cmd.args| >= |args| + 1 && cmd.args[|cmd.args| - |args|..] == args
    ensures ' ' !in cmd.path && cmd.args[0] == cmd.path
    ensures Join(cmd.args[..|cmd.args| - |args|], ' ') == name
    ensures cmd.args == Split(name, ' ') + args
    ensures cmd.env == usr.env && cmd.cred == Some(usr.Cred())
  {
    ghost var tokens := Split(name, ' ');
    ghost var given := args;
    var name := name;
    var args := args;
    ContainsChar(name, ' ');
    if ContainsStr(name, " ") {
      var nameArgs := Split(name, ' ');
      name := nameArgs[0];
      args := nameArgs[1..] + args;
      assert [name] + args == nameArgs + given;
    } else {
      SplitWithout(name, ' ');
    }
    cmd := Cmd(name, [name] + args, usr.env, Some(usr.Cred()));
    assert cmd.args == tokens + given;
    assert cmd.args[..|tokens|] == tokens;
  }

  /** What `mkDirsForFile` does for a path. */
  datatype MkdirStep =
    | NothingToDo
      /** `os.MkdirAll` on the directory part of the path. */
    | MkdirAll(dir: string)
      /** The slice `path[:-1]` when the path holds no `/`: a run-time panic. */
    | SlicePanic

  /**
   * `mkDirsForFile`: for a non-empty path that does not exist yet, the
   * directories up to its last `/` are created; the file itself is not.
   */
  function MkDirsForFile(files: map<string, bv32>, path: string): (r: MkdirStep)
    ensures r.NothingToDo? <==> FileExists(files, path) || path == ""
    ensures r.SlicePanic? <==> !FileExists(files, path) && path != "" && '/' !in path
    ensures r.MkdirAll? ==> |r.dir| < |path| && path[..|r.dir|] == r.dir && path[|r.dir|] == '/' && '/' !in path[|r.dir| + 1..]
  {
    if !FileExists(files, path) && path != "" then
      var k := LastIndexOf(path, '/');
      if k < 0 then SlicePanic else MkdirAll(path[..k])
    else
      NothingToDo
  }
}
