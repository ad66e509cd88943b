/**
 * The records the login manager works on: its configuration, the
 * authenticated user with the environment map that is handed to every child
 * process, prepared commands, the host's process environment and file
 * system, and the TTY device's ownership metadata.
 */
module Platform {
  import opened GoStrings

  datatype Option<T> = None | Some(value: T)

  /** A value, or the error reported instead of it. */
  datatype Result<T> = Ok(value: T) | Failure(reason: string)

  /** How a step ends: normally, or through the fatal-error exit of the program. */
  datatype Outcome = Done | Fatal(reason: string)

  /**
   * The configuration fields the session code reads. `strTTY` and `ttyPath`
   * stand for the results of `conf.strTTY()` and `conf.ttyPath()`.
   */
  datatype Config = Config(
    strTTY: string,
    ttyPath: string,
    lang: string,
    xinitrcLaunch: bool,
    dbusLaunch: bool,
    xorgArgs: string,
    defaultXauthority: bool,
    rootlessXorg: bool,
    daemonMode: bool)

  /** Process credentials given to a child: uid, gid and supplementary groups. */
  datatype Credential = Credential(uid: nat, gid: nat, groups: seq<nat>)

  /**
   * A prepared `exec.Cmd`: the program name given to `exec.Command` (not
   * resolved through `PATH`), the full argument vector (whose first element is
   * that name), the environment and the credentials it runs under (None:
   * those of the login manager).
   */
  datatype Cmd = Cmd(path: string, args: seq<string>, env: map<string, string>, cred: Option<Credential>)

  /** Reading a variable from an environment map; an unset variable reads as "". */
  function Lookup(env: map<string, string>, key: string): string {
    if key in env then env[key] else ""
  }

  /** An authenticated user and the environment prepared for the user's processes. */
  class SysUser {
    const username: string
    const uid: nat
    const gid: nat
    const gids: seq<nat>
    const homedir: string
    var env: map<string, string>

    constructor (username: string, uid: nat, gid: nat, gids: seq<nat>, homedir: string)
      ensures this.username == username && this.uid == uid && this.gid == gid
      ensures this.gids == gids && this.homedir == homedir && env == map[]
    {
      this.username := username;
      this.uid := uid;
      this.gid := gid;
      this.gids := gids;
      this.homedir := homedir;
      env := map[];
    }

    function Getenv(key: string): string
      reads this
    {
      Lookup(env, key)
    }

    method Setenv(key: string, value: string)
      modifies this
      ensures env == old(env)[key := value]
    {
      env := env[key := value];
    }

    /** The user's uid in decimal, as `strUid` gives it. */
    function StrUid(): string {
      Itoa(uid)
    }

    function Cred(): Credential {
      Credential(uid, gid, gids)
    }
  }

  /**
   * The parts of the host the session code touches: the login manager's own
   * process environment, the existing paths with their mode bits, and the
   * login manager's own uid.
   */
  class Host {
    var env: map<string, string>
    var files: map<string, bv32>
    const uid: nat

    constructor (env: map<string, string>, files: map<string, bv32>, uid: nat)
      ensures this.env == env && this.files == files && this.uid == uid
    {
      this.env := env;
      this.files := files;
      this.uid := uid;
    }

    /** `os.Remove`; removing a missing path leaves the file system as it was. */
    method Remove(path: string)
      modifies this
      ensures files == old(files) - {path} && env == old(env)
    {
      files := files - {path};
    }
  }

  /** What `os.Stat` reports about the TTY device: owner, group and permission bits. */
  datatype TtyStat = TtyStat(uid: nat, gid: nat, mode: bv32)

  /** The TTY device file; `stat` is None when the device cannot be stat'ed. */
  class TtyDevice {
    var stat: Option<TtyStat>

    constructor (stat: Option<TtyStat>)
      ensures this.stat == stat
    {
      this.stat := stat;
    }
  }
}
