# emptty session core in Dafny

A model of the decision and string-building rules at the centre of emptty. emptty is a TTY display manager. It reads key-value property files and the os-release file. It converts colour names to terminal colour codes. It prepares the environment, display number, X server arguments and desktop command line of a user's session. For an Xorg session it starts the X server as a "carrier", and on the rootless path it manages the ownership of the TTY device.

The file system is a map from existing paths to mode bits. The login manager's own environment is a map in the `Host` class. Everything the code learns from running a program or making a system call is a parameter, and fatal exits are an `Outcome` or `Result` value:

- the text of a scanned file;
- the output of `getent passwd`;
- whether `mkdir`, `chown`, `chmod`, `mcookie`, `xauth` and `Xorg` succeeded;
- the current TTY name.

Modules:

- `GoStrings`: the Go `strings`/`strconv` functions the core uses, defined as Go computes them, with the properties the model relies on. Strings are character sequences.
- `Platform`: the configuration record, the user (`SysUser`, whose environment map `setenv` updates in place), the host, prepared commands and the TTY device.
- `Properties`: property-file parsing, `readPropertiesToMap` and `getOsReleaseValue` from `src/utils.go`.
- `Utils`: the other helpers of `src/utils.go`.
- `Login`: `src/login.go`.
- `SessionXorg`: `src/session_xorg.go`. The `XorgSession` class holds the Xorg carrier as a field that `StartCarrier` sets.

`src/login.go` and `src/session_xorg.go` come from two revisions of the program, and both are modelled as written:

- `login.go` splits the extra X server arguments at spaces.
- `session_xorg.go` hands them to an exec-line parser whose result is a parameter here.

Behaviour of the code that the model keeps:

- In `prepareGuiCommand`, the non-script multi-token command passes every token as an argument, so the program's own name also appears as its first argument (`GuiCommand`).
- `getOsReleaseValue` drops the first and last character of every value longer than one character, whether or not it is quoted, so an unquoted `ID=fedora` gives `edor` (`OsReleaseCallback`, `OsReleaseLastLineWins`).
- `prepareGuiCommand` splits the whole command line at spaces, the `.xinitrc` path included, so a home directory holding a space breaks the `.xinitrc` launch: `/bin/sh` is handed the part of the path before the space (`GuiCommand`; `XinitrcCommand` holds only for homes without spaces).
- `finishCarrier` gives the TTY to the login manager's own uid, not to whoever owned it before. It leaves mode 0620 in place (`OwnershipRoundTrip`).

## Model

| member | source | states |
|---|---|---|
| Properties.ScanLines | src/utils.go:38-41 | the scanned lines never contain a newline |
| Properties.ScanLinesRoundTrip | src/utils.go:38-43 | lines that hold no newline and none of which ends in a carriage return, written out with a newline after each, then scanned, come back unchanged |
| Properties.ReadPropertyLine | src/utils.go:48-60 | a pair is produced exactly when the line does not start with `#` and contains `=`; its key is trimmed, upper-case and free of `=`; its value is trimmed and free of `#` |
| Properties.SplitProperty | src/utils.go:50-57 | the key part is trimmed, upper-case and free of `=`; the value part is trimmed and contains no `#` (the exact key and value are stated by `ParsePropertyLine`) |
| Properties.ParsePropertyLine | src/utils.go:48-58 | every line `keyText=value[#comment]` that does not start with `#` yields the key text with every `export ` removed, trimmed and upper-cased, and the value up to the first `#`, trimmed |
| Properties.ParsePlainKey | src/utils.go:48-58 | a key text without `export ` comes back trimmed and upper-cased, whatever its case |
| Properties.ParseLowerCaseKey | src/utils.go:48-58 | `name=x` yields (`NAME`, `x`) |
| Properties.ParseSpacedKey | src/utils.go:48-58 | `Foo = bar` yields (`FOO`, `bar`) |
| Properties.CleanCanonicalKey | src/utils.go:51-56 | removing `export `, trimming and upper-casing give a canonical key back, with or without an `export ` prefix |
| Properties.CutComment | src/utils.go:53-55 | truncating at the first `#` removes exactly a trailing comment |
| Properties.ParseFormattedLine | src/utils.go:48-60 | `[export ]KEY=value[#comment]` yields the key and the trimmed value |
| Properties.FoldKeys | src/utils.go:66-68 | the stored keys are the initial keys plus those of the stored pairs |
| Properties.LastPairWins | src/utils.go:66-68 | the last pair stored under a key decides its value |
| Properties.PropertiesMapKeys | src/utils.go:64-73 | the keys of the property map are exactly the keys of the parsed lines |
| Properties.PropertyLastLineWins | src/utils.go:64-73 | a key defined on a line that no later line redefines maps to that line's value |
| Properties.PropertiesMapStep | src/utils.go:39-42 | the map of the first i+1 lines is the map of the first i lines with line i stored |
| Properties.StorePropertyCallback | src/utils.go:66-68 | the pair's value becomes its key's value and every other key keeps its value |
| Properties.PropertiesOfIsFold | src/utils.go:39-42 | running the callback on each scanned line in turn stores the same map as folding all parsed pairs in order |
| Properties.ReadPropertiesToMap | src/utils.go:64-73 | an unopenable or unreadable file gives no map; otherwise the map of all scanned lines, later lines overwriting earlier ones |
| Properties.StoreStripped | src/utils.go:268-272 | the callback stores a value only if it is longer than one character, without its first and last characters |
| Properties.OsReleaseMapStep | src/utils.go:268-272 | the os-release values of the first i+1 lines are those of the first i lines with line i stored |
| Properties.OsReleaseCallback | src/utils.go:268-272 | a value of more than one character is stored under its key without its first and last characters; a shorter one changes nothing |
| Properties.OsReleaseValuesOfIsFold | src/utils.go:39-42 | running the os-release callback on each scanned line in turn stores the same values as folding all stripped pairs in order |
| Properties.SelectOsRelease | src/utils.go:274-280 | a named key is looked up; for the empty name, a non-empty `PRETTY_NAME` wins, and `NAME` is used otherwise |
| Properties.OsReleaseLastLineWins | src/utils.go:266-272 | a value longer than one character on the last line defining a key is returned without its first and last character, quoted or not |
| Properties.OsReleaseShortValueIgnored | src/utils.go:269-271 | a line whose value has at most one character changes nothing |
| Properties.ReadOsReleaseValues | src/utils.go:31-44 | scanning the os-release file line by line with the `getOsReleaseValue` callback gives the values map of all scanned lines; an unopenable file leaves it empty and read errors are ignored |
| Properties.GetOsReleaseValue | src/utils.go:266-281 | the selected value of the map built from the file, read errors ignored |
| Utils.FileExistsAfterRemove | src/utils.go:76-79 | after a path is removed it no longer exists, and every other path exists exactly as before |
| Utils.FileIsExecutableBit | src/utils.go:82-85 | an executable path exists, and a path is executable exactly when the owner-execute bit (octal 0100) of its mode is set |
| Utils.SanitizeValue | src/utils.go:88-93 | the default is returned, as given, only for the empty value; any other value comes back trimmed, and it is empty exactly when the value is blank |
| Utils.SanitizeBlank | src/utils.go:88-93 | a present but blank value becomes "", not the default |
| Utils.SanitizePadded | src/utils.go:88-93 | a non-empty value padded with whitespace comes back as the value itself |
| Utils.GoParseBool | src/utils.go:171 | the accepted spellings of true and false; anything else is an error |
| Utils.ParseFormatBool | src/utils.go:171 | a formatted boolean parses back to itself |
| Utils.ParseBool | src/utils.go:170-176 | true exactly when the sanitised value spells true; errors give false |
| Utils.ParseBoolOfEmpty | src/utils.go:170-176 | the empty value falls back to the default, which is not trimmed |
| Utils.ParseBoolOfBlank | src/utils.go:170-176 | a blank value is false whatever the default |
| Utils.ParseBoolPadded | src/utils.go:170-176 | a formatted boolean surrounded by whitespace reads back as itself |
| Utils.Contains | src/utils.go:160-167 | true exactly when some element equals the value |
| Utils.ColorNumber | src/utils.go:110-131 | the empty name gives 0; colour i of BLACK..WHITE gives 30+i; any other name gives nothing |
| Utils.ConvertColor | src/utils.go:104-143 | "" exactly for unknown names; "0" when nothing is left once `LIGHT_` is removed; otherwise the digits of a foreground (30-37, 90-97) or background (40-47, 100-107) SGR colour parameter |
| Utils.NamedColorParts | src/utils.go:105-107 | upper-casing and removing `LIGHT_` recover the colour, and the light flag is set exactly when the prefix is present |
| Utils.ConvertNamedColor | src/utils.go:104-142 | colour i converts to 30+i, plus 10 as a background, plus 60 with `LIGHT_` |
| Utils.ConvertEmptyColor | src/utils.go:110-112 | the empty name gives "0" whatever the ground |
| Utils.ConvertColorCaseInsensitive | src/utils.go:105 | colour names are matched without regard to case |
| Utils.CmdAsUser | src/utils.go:146-157 | the argument vector is the space-split name followed by the given arguments; the program has no space; the leading tokens joined by spaces give the name back; the command gets the user's environment and credentials |
| Utils.MkDirsForFile | src/utils.go:96-101 | nothing is done for an existing or empty path; a missing path without `/` panics; otherwise the directory up to the last `/` is created |
| Login.FirstFreeFrom | src/login.go:259-267 | the first slot from i on without a lock file, or 0 when all are locked |
| Login.FreeDisplayIsLeast | src/login.go:259-267 | the display is the least free slot in [0,32), or 0 when none is free |
| Login.LeastFreeUnique | src/login.go:259-267 | only one number meets that description, so the two allocators agree |
| Login.GetFreeXDisplay | src/login.go:259-267 | the probing loop returns the least free slot, or 0 |
| Login.GetStrExec | src/login.go:251-256 | the exec line, which allows a prefix, when it is non-empty; otherwise the path, which does not |
| Login.WrappersExclusive | src/login.go:221-229 | `.xinitrc` and `dbus-launch` wrapping never both happen, because the `.xinitrc` step clears the prefix flag the `dbus-launch` guard tests |
| Login.PreparedExecIdempotent | src/login.go:221-229 | for a desktop with a non-empty exec line on which the `.xinitrc` wrapper does not apply, preparing the prepared exec line again adds no second `dbus-launch` |
| Login.XinitrcNotReapplied | src/login.go:221-225 | preparing an exec line that the `.xinitrc` wrapper produced does not wrap it a second time |
| Login.GuiCommand | src/login.go:231-242 | the argument vector ends with the space-split command line; `/bin/sh` runs multi-token lines with the script flag; otherwise the first token is the program |
| Login.XinitrcCommand | src/login.go:221-241 | with the `.xinitrc` wrapper and a home directory without spaces, `/bin/sh` runs the script with the desktop's own tokens as arguments |
| Login.PrepareGuiCommand | src/login.go:216-248 | the returned line and command are the prepared exec line and the command built from it, run as the user |
| Login.RuntimeDirPerUser | src/login.go:67 | the runtime directory is `/run/user/<uid>`, distinct for distinct uids |
| Login.GetUserShell | src/login.go:88-94 | a failed `getent` is fatal; the shell is a single passwd field |
| Login.PasswdShell | src/login.go:92-93 | the seventh field of a newline-terminated passwd entry is read back exactly |
| Login.DefineEnvironment | src/login.go:59-85 | HOME, PWD, USER, LOGNAME, XDG_CONFIG_HOME, XDG_RUNTIME_DIR, XDG_SEAT and XDG_SESSION_CLASS are set, then SHELL, LANG and PATH; other variables are kept; a shell or mkdir failure is fatal |
| Login.WaylandEnvironment | src/login.go:99 | XDG_SESSION_TYPE becomes `wayland` and nothing else changes |
| Login.XorgEnvironment | src/login.go:125-130 | the free display is allocated; XDG_SESSION_TYPE becomes `x11`, XAUTHORITY `<runtime dir>/.emptty-xauth`, DISPLAY `:<n>` |
| Login.XorgServerArgs | src/login.go:161-166 | `vt<tty>`, the display, then the extra arguments split at spaces, only when configured; they join back to the configured string |
| SessionXorg.AllowRootlessX | src/session_xorg.go:132-134 | rootless only when configured, always in daemon mode, otherwise exactly when the configured TTY is the current one |
| SessionXorg.OwnershipAfter | src/session_xorg.go:105-118 | a failed stat or chown changes nothing; otherwise the owner becomes uid, the group stays, and the mode becomes 0620 unless chmod fails |
| SessionXorg.OwnershipSuccess | src/session_xorg.go:105-118 | a successful change leaves exactly owner uid, the old group and mode 0620 |
| SessionXorg.OwnershipRoundTrip | src/session_xorg.go:54-56 | giving the TTY to the user and back leaves it owned by the login manager's uid with mode 0620 |
| SessionXorg.CarrierArgs | src/session_xorg.go:41-49 | `vt<tty>`, the display, `-keeptty` exactly when rootless, then the configured arguments |
| SessionXorg.XorgSession.GetFreeXDisplay | src/session_xorg.go:121-129 | the decimal form of the least free display slot, "0" when none is free |
| SessionXorg.XorgSession.SetTTYOwnership | src/session_xorg.go:105-118 | the TTY record becomes its ownership-after state; the error is reported exactly when stat, chown or chmod fails |
| SessionXorg.XorgSession.BuildXorgArgs | src/session_xorg.go:41-49 | the appended list is the carrier argument list |
| SessionXorg.CarrierCommand | src/session_xorg.go:51-62 | rootless, the X server runs as the user with the user's environment and the space-split path; otherwise it runs as the login manager with the process environment; the server arguments come last |
| SessionXorg.XorgSession.PrepareDisplay | src/session_xorg.go:19-24 | the user's environment becomes exactly the old one with XAUTHORITY pointed into the runtime directory (only without the default-authority option) and DISPLAY set to `:<least free slot>`; the stale authority file is removed in that case only |
| SessionXorg.XorgSession.StartCarrier | src/session_xorg.go:18-73 | the user's environment is exactly the old one with XAUTHORITY overridden (only without the default-authority option) and DISPLAY set to `:<free slot>`; the stale authority file is removed in that case only; cookie failures are fatal before anything starts; rootless gives the user's environment, credentials and TTY ownership; otherwise the process environment gets DISPLAY and XAUTHORITY and the server inherits it |
| SessionXorg.XorgSession.GetCarrierPid | src/session_xorg.go:76-81 | no carrier is a fatal error; otherwise the carrier's pid |
| SessionXorg.XorgSession.FinishCarrier | src/session_xorg.go:84-102 | returns the wait error; removes the authority file; gives the TTY back to the login manager's uid only when rootless |

## Left out

- Opening files, `bufio` scanning, starting, waiting for and signalling processes, and `os.Exit`. Their outcomes are parameters: a scanned text with an error flag, command outputs, success flags and a pid.
- Signal handling (`registerInterruptHandler`, `handleInterrupt`, `makeInterruptChannel`): concurrency.
- `getIpAddress`, `getIpAddressFromIface` and `getDnsDomainName`: network look-ups.
- `runSimpleCmd` and `runSimpleCmdAsUser`: process I/O.
- `doAsUser` and `setFsUser`: process-wide identity system calls.
- `getCurrentTTYName` resolves symbolic links and runs `ps`. Its result is the session's constant `currentTTY`, although the source asks again at every `allowRootlessX` call.
- `login`, `authUser`, `loadUserDesktop`, `selectDesktop`, `defineSpecificEnvVariables`, the utmp entries, `openXDisplay`, `closeAuth`, `lookPath` and `parseExec` are not part of this model. The results of `lookPath` and `parseExec` are parameters.
- `xorg` in `src/login.go` goes on to create the authority file, run `mcookie` and `xauth`, and start and stop the X server and the desktop. Only its environment and argument list are modelled. `wayland` likewise is modelled only for its environment.
- Login.DefineEnvironment: only the failure of creating the runtime directory is modelled, not the directory itself, its chown or the chdir.
- SessionXorg.XorgSession.StartCarrier: the `mcookie` and `xauth` commands are modelled only by their success; the cookie text and their argument vectors are not.
- SessionXorg.XorgSession.FinishCarrier: requires a started carrier with a process, because the source dereferences it unconditionally.
- Properties.ReadPropertyLine: key upper-casing covers ASCII letters only, not all of Unicode.
- Utils.ConvertColor: upper-casing covers ASCII letters only, not all of Unicode.
- Properties.GetOsReleaseValue: lengths and slices count characters, while Go counts bytes, so values holding multi-byte characters can differ.
- Properties.ScanLines: the scanner's line-length limit is not modelled; it shows up only as the read-error flag.
- SessionXorg.OwnershipAfter: the TTY mode holds only the permission bits, not the file-type bits.
- `exec.Command` resolves a program name without a `/` through `PATH` (`exec.LookPath`). `Cmd.path` holds the name as given, so that resolution is not modelled.
- Uids and gids are unbounded naturals. The source's conversions to 32-bit values are not modelled.
- `fileExists` and `fileIsExecutable` read a map from existing paths to mode bits, without symbolic links or permission errors.
