/**
 * Building a graphical session for an authenticated user: the environment
 * the session runs in, the X display number, the X server's arguments and
 * the command line that starts the desktop.
 */
module Login {
  import opened GoStrings
  import opened Platform
  import opened Utils

  const EnvXdgConfigHome := "XDG_CONFIG_HOME"
  const EnvXdgRuntimeDir := "XDG_RUNTIME_DIR"
  const EnvXdgSessionType := "XDG_SESSION_TYPE"
  const EnvXdgSessionClass := "XDG_SESSION_CLASS"
  const EnvXdgSeat := "XDG_SEAT"
  const EnvHome := "HOME"
  const EnvPwd := "PWD"
  const EnvUser := "USER"
  const EnvLogname := "LOGNAME"
  const EnvXauthority := "XAUTHORITY"
  const EnvDisplay := "DISPLAY"
  const EnvShell := "SHELL"
  const EnvLang := "LANG"
  const EnvPath := "PATH"

  /** The display server a desktop runs on. */
  datatype EnvKind = Wayland | Xorg

  /** A selected desktop: its command line, the path it was found at, and its display server. */
  datatype Desktop = Desktop(exec: string, path: string, env: EnvKind)

  /** The number of X display slots that are probed. */
  const DisplaySlots: nat := 32

  /** The lock file an X server holds for display `i`. */
  function LockPath(i: nat): string {
    "/tmp/.X" + Itoa(i) + "-lock"
  }

  predicate SlotFree(files: map<string, bv32>, i: nat) {
    !FileExists(files, LockPath(i))
  }

  /**
   * The display chosen from slot `i` onwards: the first slot in [i, 32) whose
   * lock file is missing, and 0 when every one of them is locked.
   */
  function FirstFreeFrom(files: map<string, bv32>, i: nat): (d: nat)
    requires i <= DisplaySlots
    ensures (exists j | i <= j < DisplaySlots :: SlotFree(files, j)) ==>
      i <= d < DisplaySlots && SlotFree(files, d) && forall j | i <= j < d :: !SlotFree(files, j)
    ensures (forall j | i <= j < DisplaySlots :: !SlotFree(files, j)) ==> d == 0
    decreases DisplaySlots - i
  {
    if i == DisplaySlots then 0
    else if SlotFree(files, i) then i
    else FirstFreeFrom(files, i + 1)
  }

  /** The display number both allocators return. */
  function FreeDisplay(files: map<string, bv32>): nat {
    FirstFreeFrom(files, 0)
  }

  /** `d` is the least free slot in [0, 32), or 0 when all 32 are locked. */
  predicate LeastFreeOrZero(files: map<string, bv32>, d: nat) {
    d < DisplaySlots &&
    if exists j | 0 <= j < DisplaySlots :: SlotFree(files, j) then
      SlotFree(files, d) && forall j | 0 <= j < d :: !SlotFree(files, j)
    else
      d == 0
  }

  /** The allocated display is the least free slot, or 0 when none is free; it is always below 32. */
  lemma FreeDisplayIsLeast(files: map<string, bv32>)
    ensures LeastFreeOrZero(files, FreeDisplay(files))
  {
  }

  /** At most one display number meets that description, so both allocators agree. */
  lemma LeastFreeUnique(files: map<string, bv32>, d1: nat, d2: nat)
    requires LeastFreeOrZero(files, d1) && LeastFreeOrZero(files, d2)
    ensures d1 == d2
  {
  }

  /** `getFreeXDisplay`: probes the lock files of displays 0..31 in order. */
  method GetFreeXDisplay(files: map<string, bv32>) returns (d: nat)
    ensures LeastFreeOrZero(files, d)
  {
    for i := 0 to DisplaySlots
      invariant forall j | 0 <= j < i :: !SlotFree(files, j)
    {
      if !FileExists(files, LockPath(i)) {
        assert SlotFree(files, i);
        return i;
      }
    }
    return 0;
  }

  /**
   * `getStrExec`: the desktop's exec line, which may be prefixed, or else its
   * path, which may not.
   */
  function GetStrExec(d: Desktop): (r: (string, bool))
    ensures r.1 <==> d.exec != ""
    ensures r.0 == if r.1 then d.exec else d.path
  {
    if d.exec != "" then (d.exec, true) else (d.path, false)
  }

  /** The user's start-up script. */
  function XinitrcPath(home: string): string {
    home + "/.xinitrc"
  }

  /**
   * The `.xinitrc` wrapper is applied: an Xorg desktop, the option set, a
   * prefixable command not already naming `.xinitrc`, and the script present.
   */
  predicate XinitrcApplies(home: string, d: Desktop, conf: Config, files: map<string, bv32>) {
    var (strExec, allowPrefix) := GetStrExec(d);
    d.env == Xorg && conf.xinitrcLaunch && allowPrefix && !ContainsStr(strExec, ".xinitrc")
    && FileExists(files, XinitrcPath(home))
  }

  /**
   * The command line and the prefix flag after the `.xinitrc` step: applying
   * the script puts it in front and forbids any further prefix.
   */
  function AfterXinitrc(home: string, d: Desktop, conf: Config, files: map<string, bv32>): (string, bool) {
    var (strExec, allowPrefix) := GetStrExec(d);
    if XinitrcApplies(home, d, conf, files) then (XinitrcPath(home) + " " + strExec, false)
    else (strExec, allowPrefix)
  }

  /**
   * `dbus-launch` is put in front: the option set, not already on the command
   * line left by the `.xinitrc` step, and a prefix still allowed.
   */
  predicate DbusApplies(home: string, d: Desktop, conf: Config, files: map<string, bv32>) {
    var (strExec, allowPrefix) := AfterXinitrc(home, d, conf, files);
    conf.dbusLaunch && !ContainsStr(strExec, "dbus-launch") && allowPrefix
  }

  /** The command line `prepareGuiCommand` settles on. */
  function PreparedExec(home: string, d: Desktop, conf: Config, files: map<string, bv32>): string {
    var strExec := AfterXinitrc(home, d, conf, files).0;
    if DbusApplies(home, d, conf, files) then "dbus-launch " + strExec else strExec
  }

  /** The two wrappers never both apply. */
  lemma WrappersExclusive(home: string, d: Desktop, conf: Config, files: map<string, bv32>)
    ensures !(XinitrcApplies(home, d, conf, files) && DbusApplies(home, d, conf, files))
  {
  }

  /** Preparing the line that `.xinitrc` wrapping produced does not wrap it a second time. */
  lemma XinitrcNotReapplied(home: string, d: Desktop, conf: Config, files: map<string, bv32>)
    requires XinitrcApplies(home, d, conf, files)
    ensures !XinitrcApplies(home, d.(exec := PreparedExec(home, d, conf, files)), conf, files)
  {
    var e := GetStrExec(d).0;
    assert PreparedExec(home, d, conf, files) == home + "/.xinitrc" + " " + e;
    ContainsInfix(home + "/", ".xinitrc", " " + e);
    assert home + "/" + ".xinitrc" + (" " + e) == home + "/.xinitrc" + " " + e;
  }

  /**
   * Preparing a desktop whose exec line is already the prepared one adds no
   * second `dbus-launch` (the case where `.xinitrc` was applied is excluded:
   * a second pass would put `dbus-launch` in front of the script).
   */
  lemma PreparedExecIdempotent(home: string, d: Desktop, conf: Config, files: map<string, bv32>)
    requires d.exec != "" && !XinitrcApplies(home, d, conf, files)
    ensures var d2 := d.(exec := PreparedExec(home, d, conf, files));
      PreparedExec(home, d2, conf, files) == PreparedExec(home, d, conf, files)
  {
    var e := d.exec;
    if DbusApplies(home, d, conf, files) {
      var d2 := d.(exec := "dbus-launch " + e);
      ContainsInfix("", "dbus-launch", " " + e);
      assert "" + "dbus-launch" + (" " + e) == d2.exec;
      if ContainsStr(e, ".xinitrc") {
        ContainsExtend("dbus-launch ", e, ".xinitrc");
      }
      assert !XinitrcApplies(home, d2, conf, files);
      assert !DbusApplies(home, d2, conf, files);
    }
  }

  /**
   * The command `prepareGuiCommand` builds from the final command line split
   * at spaces: one token runs that program alone; with the script flag
   * `/bin/sh` runs all tokens; otherwise the first token runs with all tokens,
   * itself included, as its arguments.
   */
  function GuiCommand(strExec: string, startScript: bool, env: map<string, string>, cred: Credential): (cmd: Cmd)
    ensures var tokens := Split(strExec, ' ');
      && |cmd.args| == |tokens| + (if |tokens| > 1 then 1 else 0)
      && cmd.args[|cmd.args| - |tokens|..] == tokens
      && cmd.args[0] == cmd.path
      && (if startScript && |tokens| > 1 then cmd.path == "/bin/sh" else cmd.path == tokens[0])
      && cmd.env == env && cmd.cred == Some(cred)
  {
    var arrExec := Split(strExec, ' ');
    if |arrExec| > 1 then
      if startScript then Cmd("/bin/sh", ["/bin/sh"] + arrExec, env, Some(cred))
      else Cmd(arrExec[0], [arrExec[0]] + arrExec, env, Some(cred))
    else Cmd(arrExec[0], [arrExec[0]], env, Some(cred))
  }

  /**
   * With the `.xinitrc` wrapper and a home directory free of spaces, `/bin/sh`
   * runs the script with the desktop's own tokens as its arguments.
   */
  lemma XinitrcCommand(home: string, d: Desktop, conf: Config, files: map<string, bv32>,
                       env: map<string, string>, cred: Credential)
    requires XinitrcApplies(home, d, conf, files) && ' ' !in home
    ensures GuiCommand(PreparedExec(home, d, conf, files), true, env, cred)
         == Cmd("/bin/sh", ["/bin/sh", XinitrcPath(home)] + Split(GetStrExec(d).0, ' '), env, Some(cred))
  {
    var e := GetStrExec(d).0;
    assert ' ' !in XinitrcPath(home) by {
      assert XinitrcPath(home) == home + "/.xinitrc";
    }
    SplitAround(XinitrcPath(home), ' ', e);
    assert XinitrcPath(home) + " " + e == XinitrcPath(home) + [' '] + e;
    assert ["/bin/sh"] + ([XinitrcPath(home)] + Split(e, ' ')) == ["/bin/sh", XinitrcPath(home)] + Split(e, ' ');
  }

  /**
   * `prepareGuiCommand`: starts from the desktop's exec line, applies at most
   * one start-up prefix, and builds the command that runs the result as the
   * user, with the user's environment.
   */
  method PrepareGuiCommand(usr: SysUser, d: Desktop, conf: Config, files: map<string, bv32>)
    returns (cmd: Cmd, strExec: string)
    ensures strExec == PreparedExec(usr.homedir, d, conf, files)
    ensures cmd == GuiCommand(strExec, XinitrcApplies(usr.homedir, d, conf, files), usr.env, usr.Cred())
  {
    var (exec, allowPrefix) := GetStrExec(d);
    strExec := exec;
    var allowStartupPrefix := allowPrefix;
    var startScript := false;

    if d.env == Xorg && conf.xinitrcLaunch && allowStartupPrefix && !ContainsStr(strExec, ".xinitrc")
       && FileExists(files, usr.homedir + "/.xinitrc") {
      startScript := true;
      allowStartupPrefix := false;
      strExec := usr.homedir + "/.xinitrc " + strExec;
    }

    if conf.dbusLaunch && !ContainsStr(strExec, "dbus-launch") && allowStartupPrefix {
      strExec := "dbus-launch " + strExec;
    }

    var arrExec := Split(strExec, ' ');
    if |arrExec| > 1 {
      if startScript {
        cmd := Cmd("/bin/sh", ["/bin/sh"] + arrExec, usr.env, Some(usr.Cred()));
      } else {
        cmd := Cmd(arrExec[0], [arrExec[0]] + arrExec, usr.env, Some(usr.Cred()));
      }
    } else {
      cmd := Cmd(arrExec[0], [arrExec[0]], usr.env, Some(usr.Cred()));
    }
  }

  /** `env` with the variables `defineEnvironment` sets before it asks for the login shell. */
  function WithSessionBase(env: map<string, string>, username: string, uid: nat, home: string): map<string, string> {
    env[EnvHome := home][EnvPwd := home][EnvUser := username][EnvLogname := username]
       [EnvXdgConfigHome := home + "/.config"][EnvXdgRuntimeDir := "/run/user/" + Itoa(uid)]
       [EnvXdgSeat := "seat0"][EnvXdgSessionClass := "user"]
  }

  /** The runtime directory is `/run/user/<uid>`; users with different uids get different ones. */
  lemma RuntimeDirPerUser(env1: map<string, string>, name1: string, uid1: nat, home1: string,
                          env2: map<string, string>, name2: string, uid2: nat, home2: string)
    requires uid1 != uid2
    ensures WithSessionBase(env1, name1, uid1, home1)[EnvXdgRuntimeDir] == "/run/user/" + Itoa(uid1)
    ensures WithSessionBase(env1, name1, uid1, home1)[EnvXdgRuntimeDir] != WithSessionBase(env2, name2, uid2, home2)[EnvXdgRuntimeDir]
  {
    var p := "/run/user/";
    if p + Itoa(uid1) == p + Itoa(uid2) {
      assert Itoa(uid1) == (p + Itoa(uid1))[|p|..];
      assert Itoa(uid2) == (p + Itoa(uid2))[|p|..];
      ItoaInjective(uid1, uid2);
    }
  }

  /**
   * `getUserShell`: the seventh `:`-separated field of the `getent passwd`
   * line, once one trailing newline is removed. A failed command is fatal;
   * a line with fewer than seven fields fails the index.
   */
  function GetUserShell(getentOut: Option<string>): (r: Result<string>)
    ensures getentOut.None? ==> r.Failure?
    ensures r.Ok? ==> ':' !in r.value
  {
    if getentOut.None? then Failure("getent passwd failed")
    else
      var ent := Split(TrimSuffix(getentOut.value, "\n"), ':');
      if |ent| < 7 then Failure("index out of range") else Ok(ent[6])
  }

  /** The shell field of a well-formed passwd entry, written with its newline, is read back. */
  lemma PasswdShell(fields: seq<string>)
    requires |fields| == 7 && forall k :: 0 <= k < 7 ==> ':' !in fields[k]
    ensures GetUserShell(Some(Join(fields, ':') + "\n")) == Ok(fields[6])
  {
    var line := Join(fields, ':');
    assert TrimSuffix(line + "\n", "\n") == line by {
      assert (line + "\n")[|line|..] == "\n";
      assert (line + "\n")[..|line|] == line;
    }
    SplitJoin(fields, ':');
  }

  /**
   * `defineEnvironment`: sets the user's session variables, then `SHELL` from
   * the passwd entry, `LANG` from the configuration and `PATH` from the login
   * manager's own environment, and finally creates the runtime directory.
   * Nothing else in the user's environment changes.
   */
  method DefineEnvironment(usr: SysUser, conf: Config, host: Host, getentOut: Option<string>, mkdirOk: bool)
    returns (o: Outcome)
    modifies usr
    ensures var base := WithSessionBase(old(usr.env), usr.username, usr.uid, usr.homedir);
      match GetUserShell(getentOut)
      case Failure(_) => o.Fatal? && usr.env == base
      case Ok(shell) =>
        && usr.env == base[EnvShell := shell][EnvLang := conf.lang][EnvPath := Lookup(host.env, EnvPath)]
        && (o.Done? <==> mkdirOk)
  {
    usr.Setenv(EnvHome, usr.homedir);
    usr.Setenv(EnvPwd, usr.homedir);
    usr.Setenv(EnvUser, usr.username);
    usr.Setenv(EnvLogname, usr.username);
    usr.Setenv(EnvXdgConfigHome, usr.homedir + "/.config");
    usr.Setenv(EnvXdgRuntimeDir, "/run/user/" + usr.StrUid());
    usr.Setenv(EnvXdgSeat, "seat0");
    usr.Setenv(EnvXdgSessionClass, "user");
    var shell := GetUserShell(getentOut);
    if shell.Failure? {
      return Fatal(shell.reason);
    }
    usr.Setenv(EnvShell, shell.value);
    usr.Setenv(EnvLang, conf.lang);
    usr.Setenv(EnvPath, Lookup(host.env, EnvPath));
    if !mkdirOk {
      return Fatal("could not create " + usr.Getenv(EnvXdgRuntimeDir));
    }
    return Done;
  }

  /** `wayland`: the session type is announced to the user's environment. */
  method WaylandEnvironment(usr: SysUser)
    modifies usr
    ensures usr.env == old(usr.env)[EnvXdgSessionType := "wayland"]
  {
    usr.Setenv(EnvXdgSessionType, "wayland");
  }

  /**
   * `xorg`: allocates a display and points the user's environment at it and
   * at the authority file in the runtime directory.
   */
  method XorgEnvironment(usr: SysUser, files: map<string, bv32>) returns (freeDisplay: string)
    modifies usr
    ensures freeDisplay == Itoa(FreeDisplay(files))
    ensures usr.env == old(usr.env)[EnvXdgSessionType := "x11"]
      [EnvXauthority := Lookup(old(usr.env), EnvXdgRuntimeDir) + "/.emptty-xauth"]
      [EnvDisplay := ":" + freeDisplay]
  {
    var n := GetFreeXDisplay(files);
    FreeDisplayIsLeast(files);
    LeastFreeUnique(files, n, FreeDisplay(files));
    freeDisplay := Itoa(n);
    usr.Setenv(EnvXdgSessionType, "x11");
    usr.Setenv(EnvXauthority, usr.Getenv(EnvXdgRuntimeDir) + "/.emptty-xauth");
    usr.Setenv(EnvDisplay, ":" + freeDisplay);
  }

  /**
   * The X server's arguments in `xorg`: the virtual terminal, the display, then
   * the configured extra arguments split at spaces when there are any.
   */
  method XorgServerArgs(strTTY: string, display: string, extra: string) returns (args: seq<string>)
    ensures |args| >= 2 && args[0] == "vt" + strTTY && args[1] == display
    ensures extra == "" ==> |args| == 2
    ensures extra != "" ==> |args| > 2 && Join(args[2..], ' ') == extra
    ensures forall k :: 2 <= k < |args| ==> ' ' !in args[k]
  {
    args := ["vt" + strTTY, display];
    if extra != "" {
      var arrXorgArgs := Split(extra, ' ');
      args := args + arrXorgArgs;
      assert args[2..] == arrXorgArgs;
    }
  }
}
