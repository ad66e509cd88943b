/**
 * The Xorg carrier of an X session: the X server the login manager starts
 * before the desktop, its arguments and environment, the authority file, and
 * the ownership of the TTY device the server runs on when it runs rootless.
 */
module SessionXorg {
  import opened GoStrings
  import opened Platform
  import opened Utils
  import opened Login

  /** The permission bits `setTTYOwnership` gives the TTY: octal 0620. */
  const TtyMode: bv32 := 0x190

  /**
   * `allowRootlessX`: rootless Xorg is configured, and the login manager runs
   * as a daemon or on the TTY the session is for.
   */
  function AllowRootlessX(conf: Config, currentTTY: string): (r: bool)
    ensures r ==> conf.rootlessXorg
    ensures conf.rootlessXorg && conf.daemonMode ==> r
    ensures !conf.daemonMode ==> (r <==> conf.rootlessXorg && conf.ttyPath == currentTTY)
  {
    conf.rootlessXorg && (conf.daemonMode || conf.ttyPath == currentTTY)
  }

  /**
   * The TTY metadata after `setTTYOwnership(uid)`: unchanged when the device
   * cannot be stat'ed or the chown fails; otherwise owned by `uid` with its
   * group kept, and mode 0620 unless the chmod fails.
   */
  function OwnershipAfter(stat: Option<TtyStat>, uid: nat, chownOk: bool, chmodOk: bool): (r: Option<TtyStat>)
    ensures r.Some? <==> stat.Some?
    ensures r.Some? ==> r.value.gid == stat.value.gid
    ensures r.Some? && chownOk ==> r.value.uid == uid && r.value.mode == (if chmodOk then TtyMode else stat.value.mode)
    ensures !chownOk ==> r == stat
  {
    if stat.None? || !chownOk then stat
    else
      var owned := stat.value.(uid := uid);
      Some(if chmodOk then owned.(mode := TtyMode) else owned)
  }

  /** Whether `setTTYOwnership(uid)` reports an error. */
  predicate OwnershipFails(stat: Option<TtyStat>, chownOk: bool, chmodOk: bool) {
    stat.None? || !chownOk || !chmodOk
  }

  /** A successful change of ownership leaves exactly owner `uid`, the old group and mode 0620. */
  lemma OwnershipSuccess(stat: Option<TtyStat>, uid: nat)
    requires stat.Some?
    ensures !OwnershipFails(stat, true, true)
    ensures OwnershipAfter(stat, uid, true, true) == Some(TtyStat(uid, stat.value.gid, TtyMode))
  {
  }

  /**
   * Giving the TTY to the user and back to the login manager leaves it owned by
   * the login manager's uid with mode 0620, whoever owned it before and
   * whatever its mode was; only the group survives.
   */
  lemma OwnershipRoundTrip(stat: Option<TtyStat>, userUid: nat, ownUid: nat)
    requires stat.Some?
    ensures OwnershipAfter(OwnershipAfter(stat, userUid, true, true), ownUid, true, true)
         == Some(TtyStat(ownUid, stat.value.gid, TtyMode))
  {
    OwnershipSuccess(stat, userUid);
    OwnershipSuccess(OwnershipAfter(stat, userUid, true, true), ownUid);
  }

  /** The Xorg command of a session and the pid of its process, None when no process was created. */
  datatype Carrier = Carrier(cmd: Cmd, pid: Option<nat>)

  /**
   * The X server's arguments in `startCarrier`: the virtual terminal, the
   * display, `-keeptty` exactly when rootless, then the configured arguments.
   */
  function CarrierArgs(strTTY: string, display: string, rootless: bool, xorgArgs: string, parsedArgs: seq<string>): (args: seq<string>)
    ensures |args| >= 2 && args[0] == "vt" + strTTY && args[1] == display
    ensures rootless ==> |args| >= 3 && args[2] == "-keeptty"
    ensures var rest := args[if rootless then 3 else 2..];
      rest == if xorgArgs != "" then parsedArgs else []
  {
    ["vt" + strTTY, display] + (if rootless then ["-keeptty"] else []) + (if xorgArgs != "" then parsedArgs else [])
  }

  /**
   * The command `startCarrier` prepares for the X server: rootless, the X
   * server runs as the user with the user's environment; otherwise it runs
   * as the login manager and inherits the process environment. Either way
   * the server arguments come last.
   */
  function CarrierCommand(rootless: bool, xorgPath: string, args: seq<string>, usrEnv: map<string, string>,
                          cred: Credential, procEnv: map<string, string>): (cmd: Cmd)
    ensures |cmd.args| > |args| && cmd.args[|cmd.args| - |args|..] == args && cmd.args[0] == cmd.path
    ensures cmd.cred.Some? <==> rootless
    ensures rootless ==> cmd.env == usrEnv && cmd.cred == Some(cred)
    ensures rootless ==> cmd.args == Split(xorgPath, ' ') + args && ' ' !in cmd.path
    ensures !rootless ==> cmd.env == procEnv && cmd.path == xorgPath && cmd.args == [xorgPath] + args
  {
    if rootless then Cmd(Split(xorgPath, ' ')[0], Split(xorgPath, ' ') + args, usrEnv, Some(cred))
    else Cmd(xorgPath, [xorgPath] + args, procEnv, None)
  }

  /** An Xorg session: the configuration, the user, the host, the TTY device and the carrier once started. */
  class XorgSession {
    const conf: Config
    const usr: SysUser
    const host: Host
    const tty: TtyDevice
    /** What `getCurrentTTYName("", true)` reports for the login manager's own terminal. */
    const currentTTY: string
    var xorg: Option<Carrier>

    constructor (conf: Config, usr: SysUser, host: Host, tty: TtyDevice, currentTTY: string)
      ensures this.conf == conf && this.usr == usr && this.host == host && this.tty == tty
      ensures this.currentTTY == currentTTY && xorg.None?
    {
      this.conf := conf;
      this.usr := usr;
      this.host := host;
      this.tty := tty;
      this.currentTTY := currentTTY;
      xorg := None;
    }

    predicate Rootless() {
      AllowRootlessX(conf, currentTTY)
    }

    /** `getFreeXDisplay`: the decimal number of the least free display slot, "0" when none is free. */
    method GetFreeXDisplay() returns (r: string)
      ensures r == Itoa(FreeDisplay(host.files))
    {
      for i := 0 to DisplaySlots
        invariant forall j | 0 <= j < i :: !SlotFree(host.files, j)
      {
        if !FileExists(host.files, LockPath(i)) {
          FreeDisplayIsLeast(host.files);
          LeastFreeUnique(host.files, i, FreeDisplay(host.files));
          return Itoa(i);
        }
      }
      FreeDisplayIsLeast(host.files);
      LeastFreeUnique(host.files, 0, FreeDisplay(host.files));
      return "0";
    }

    /** `setTTYOwnership`: gives the TTY device to `uid`, keeping its group, and sets mode 0620. */
    method SetTTYOwnership(uid: nat, chownOk: bool, chmodOk: bool) returns (err: bool)
      modifies tty
      ensures tty.stat == OwnershipAfter(old(tty.stat), uid, chownOk, chmodOk)
      ensures err == OwnershipFails(old(tty.stat), chownOk, chmodOk)
    {
      if tty.stat.None? {
        return true;
      }
      var gid := tty.stat.value.gid;
      if !chownOk {
        return true;
      }
      tty.stat := Some(tty.stat.value.(uid := uid, gid := gid));
      if !chmodOk {
        return true;
      }
      tty.stat := Some(tty.stat.value.(mode := TtyMode));
      return false;
    }

    /** The X server's argument list, appended to step by step: the VT, the display, `-keeptty` when rootless, then the configured arguments. */
    method BuildXorgArgs(display: string, parsedArgs: seq<string>) returns (xorgArgs: seq<string>)
      ensures xorgArgs == CarrierArgs(conf.strTTY, display, Rootless(), conf.xorgArgs, parsedArgs)
    {
      xorgArgs := ["vt" + conf.strTTY, display];
      if Rootless() {
        xorgArgs := xorgArgs + ["-keeptty"];
      }
      if conf.xorgArgs != "" {
        xorgArgs := xorgArgs + parsedArgs;
      }
    }

    /**
     * The start of `startCarrier`: without the default-authority option,
     * XAUTHORITY is pointed into the runtime directory and a stale file there
     * is removed; then DISPLAY names the least free display.
     */
    method PrepareDisplay()
      modifies usr, host
      ensures var xauth := Lookup(old(usr.env), EnvXdgRuntimeDir) + "/.emptty-xauth";
        && host.files == (if conf.defaultXauthority then old(host.files) else old(host.files) - {xauth})
        && usr.env == (if conf.defaultXauthority then old(usr.env) else old(usr.env)[EnvXauthority := xauth])
                        [EnvDisplay := ":" + Itoa(FreeDisplay(host.files))]
      ensures host.env == old(host.env)
    {
      if !conf.defaultXauthority {
        usr.Setenv(EnvXauthority, usr.Getenv(EnvXdgRuntimeDir) + "/.emptty-xauth");
        host.Remove(usr.Getenv(EnvXauthority));
      }

      var display := GetFreeXDisplay();
      usr.Setenv(EnvDisplay, ":" + display);
    }

    /**
     * `startCarrier`. `mcookie` is the output of the cookie generator (None:
     * it failed), `xauthOk` whether `xauth add` succeeded, `xorgPath` what the
     * look-up of the Xorg binary gave, `parsedArgs` the configured arguments
     * as the exec parser splits them, `pid` the process `Start` created (None:
     * none), `displayOpened` whether the display could be opened, and
     * `chownOk`/`chmodOk` the outcomes of the TTY system calls.
     */
    method StartCarrier(mcookie: Option<string>, xauthOk: bool, xorgPath: string, parsedArgs: seq<string>,
                        pid: Option<nat>, displayOpened: bool, chownOk: bool, chmodOk: bool)
      returns (o: Outcome)
      modifies this, usr, host, tty
      ensures var xauth := Lookup(old(usr.env), EnvXdgRuntimeDir) + "/.emptty-xauth";
        && host.files == (if conf.defaultXauthority then old(host.files) else old(host.files) - {xauth})
        && usr.env == (if conf.defaultXauthority then old(usr.env) else old(usr.env)[EnvXauthority := xauth])
                        [EnvDisplay := ":" + Itoa(FreeDisplay(host.files))]
      ensures mcookie.None? || !xauthOk ==> o.Fatal? && xorg == old(xorg) && tty.stat == old(tty.stat) && host.env == old(host.env)
      ensures mcookie.Some? && xauthOk ==>
        && xorg == Some(Carrier(CarrierCommand(Rootless(), xorgPath,
                                               CarrierArgs(conf.strTTY, Lookup(usr.env, EnvDisplay), Rootless(), conf.xorgArgs, parsedArgs),
                                               usr.env, usr.Cred(), host.env), pid))
        && (o.Done? <==> pid.Some? && displayOpened)
        && (if Rootless() then
              host.env == old(host.env) && tty.stat == OwnershipAfter(old(tty.stat), usr.uid, chownOk, chmodOk)
            else
              host.env == old(host.env)[EnvDisplay := Lookup(usr.env, EnvDisplay)][EnvXauthority := Lookup(usr.env, EnvXauthority)]
              && tty.stat == old(tty.stat))
    {
      PrepareDisplay();

      if mcookie.None? {
        return Fatal("could not generate mcookie");
      }
      if !xauthOk {
        return Fatal("could not generate xauthority");
      }

      var xorgArgs := BuildXorgArgs(usr.Getenv(EnvDisplay), parsedArgs);

      var cmd: Cmd;
      if Rootless() {
        cmd := CmdAsUser(usr, xorgPath, xorgArgs);
        cmd := cmd.(env := usr.env);
        var _ := SetTTYOwnership(usr.uid, chownOk, chmodOk);
      } else {
        cmd := Cmd(xorgPath, [xorgPath] + xorgArgs, map[], None);
        host.env := host.env[EnvDisplay := usr.Getenv(EnvDisplay)];
        host.env := host.env[EnvXauthority := usr.Getenv(EnvXauthority)];
        cmd := cmd.(env := host.env);
      }
      xorg := Some(Carrier(cmd, pid));

      if pid.None? {
        return Fatal("Xorg is not running");
      }
      if !displayOpened {
        return Fatal("Could not open X Display.");
      }
      return Done;
    }

    /** `getCarrierPid`: the X server's pid; no carrier is a fatal error, as is a carrier without a process. */
    method GetCarrierPid() returns (r: Result<nat>)
      ensures xorg.None? ==> r == Failure("Xorg is not running")
      ensures xorg.Some? ==> (r.Ok? <==> xorg.value.pid.Some?) && (r.Ok? ==> r.value == xorg.value.pid.value)
    {
      if xorg.None? {
        return Failure("Xorg is not running");
      }
      if xorg.value.pid.None? {
        return Failure("nil process");
      }
      return Ok(xorg.value.pid.value);
    }

    /**
     * `finishCarrier`: once the X server has been interrupted and waited for,
     * the authority file is removed and, on the rootless path only, the TTY
     * is given back to the login manager's own uid. The result is the wait
     * error; TTY errors are only logged.
     */
    method FinishCarrier(waitErr: Option<string>, chownOk: bool, chmodOk: bool) returns (err: Option<string>)
      requires xorg.Some? && xorg.value.pid.Some?
      modifies host, tty
      ensures err == waitErr
      ensures host.files == old(host.files) - {Lookup(usr.env, EnvXauthority)} && host.env == old(host.env)
      ensures tty.stat == if Rootless() then OwnershipAfter(old(tty.stat), host.uid, chownOk, chmodOk) else old(tty.stat)
    {
      host.Remove(usr.Getenv(EnvXauthority));
      if Rootless() {
        var _ := SetTTYOwnership(host.uid, chownOk, chmodOk);
      }
      return waitErr;
    }
  }
}
