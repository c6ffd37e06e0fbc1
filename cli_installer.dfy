/**
 * The command-line installer (`CLIInstaller`): a decision table that reports
 * whether `/usr/local/bin/casa` is installed and installable, and the step that
 * replaces it with a symbolic link to the CLI script bundled with the app.
 *
 * The file system is a map from path to node. The bundled script's location is
 * an input (`Bundle.main.url(forResource: "casa", ...)`), and so are the
 * platform, the operations the system refuses, and the text Foundation gives
 * each error (`localizedDescription`).
 */
module CLIInstaller {
  import opened Wrappers

  const TargetPath := "/usr/local/bin/casa"
  const NoBundledCLIReason := "Embedded CLI not found in the app bundle."
  const UnsupportedPlatformReason := "CLI installer is only available on Mac Catalyst."
  const NoBundledCLIFailure := "Embedded CLI not found"
  const UnsupportedPlatformFailure := "CLI installer is only available on Mac Catalyst"
  const InstalledMessage := "Symlink installed at /usr/local/bin/casa"
  const FailurePrefix := "Failed to install symlink: "

  /** The build target: the installer does anything only in a Mac Catalyst build. */
  datatype Platform = MacCatalyst | OtherPlatform

  datatype CLIStatus = CLIStatus(isInstalled: bool, canInstall: bool, reason: Option<string>)

  datatype InstallResult = Success(successMessage: string) | Failure(failureMessage: string) {
    /** `message`: the payload of either case. */
    function Message(): (m: string)
      ensures this == Success(m) || this == Failure(m)
    {
      match this
      case Success(m) => m
      case Failure(m) => m
    }
  }

  /**
   * `status()`: installed iff the target exists (on Catalyst); installable iff a
   * CLI is bundled (on Catalyst); a reason is given only when installing is impossible.
   */
  function Status(platform: Platform, targetExists: bool, hasCLI: bool): (s: CLIStatus)
    ensures s.isInstalled <==> platform == MacCatalyst && targetExists
    ensures s.canInstall <==> platform == MacCatalyst && hasCLI
    ensures s.reason.Some? ==> !s.canInstall
    ensures s.reason.Some? <==> platform == OtherPlatform || (!targetExists && !hasCLI)
    ensures platform == MacCatalyst && !targetExists && !hasCLI ==> s.reason == Some(NoBundledCLIReason)
  {
    match platform
    case MacCatalyst =>
      if targetExists then CLIStatus(true, hasCLI, None)
      else if !hasCLI then CLIStatus(false, false, Some(NoBundledCLIReason))
      else CLIStatus(false, true, None)
    case OtherPlatform =>
      CLIStatus(false, false, Some(UnsupportedPlatformReason))
  }

  // ---------------------------------------------------------------------
  // The file system

  datatype Node = RegularFile | Symlink(destination: string)

  /** Symbolic links the system follows before it gives up (`MAXSYMLINKS` on Darwin). */
  const MaxSymlinkHops: nat := 32

  /** Whether path names a regular file once symbolic links are followed. */
  function Resolves(entries: map<string, Node>, path: string, hops: nat): bool
    decreases hops
  {
    path in entries &&
    match entries[path]
    case RegularFile => true
    case Symlink(d) => hops > 0 && Resolves(entries, d, hops - 1)
  }

  /** `fileExists(atPath:)`: follows symbolic links, so a dangling link does not exist. */
  function FileExists(entries: map<string, Node>, path: string): (b: bool)
    ensures b ==> path in entries
    ensures path in entries && entries[path].RegularFile? ==> b
    ensures (path in entries && entries[path].Symlink? && entries[path].destination in entries &&
             entries[entries[path].destination].RegularFile?) ==> b
    ensures path in entries && entries[path].Symlink? && entries[path].destination !in entries ==> !b
  {
    Resolves(entries, path, MaxSymlinkHops)
  }

  datatype FsError = NoSuchItem(path: string) | ItemExists(path: string) | Refused(path: string, reason: string)

  /** Operations the system refuses during one install (permissions, read-only volume, ...). */
  datatype Refusals = Refusals(remove: Option<string>, createLink: Option<string>)

  class FileSystem {
    var entries: map<string, Node>

    constructor (entries: map<string, Node>)
      ensures this.entries == entries
    {
      this.entries := entries;
    }

    /** `removeItem(at:)`: removes the entry itself (a link, not what it points to). */
    method RemoveItem(path: string, refusal: Option<string>) returns (err: Option<FsError>)
      modifies this
      ensures path !in old(entries) ==> err == Some(NoSuchItem(path)) && entries == old(entries)
      ensures path in old(entries) && refusal.Some? ==> err == Some(Refused(path, refusal.value)) && entries == old(entries)
      ensures path in old(entries) && refusal.None? ==> err.None? && entries == old(entries) - {path}
    {
      if path !in entries {
        return Some(NoSuchItem(path));
      }
      if refusal.Some? {
        return Some(Refused(path, refusal.value));
      }
      entries := entries - {path};
      return None;
    }

    /** `createSymbolicLink(at:withDestinationURL:)`: fails when anything, even a dangling link, is at path. */
    method CreateSymbolicLink(path: string, destination: string, refusal: Option<string>) returns (err: Option<FsError>)
      modifies this
      ensures path in old(entries) ==> err == Some(ItemExists(path)) && entries == old(entries)
      ensures path !in old(entries) && refusal.Some? ==> err == Some(Refused(path, refusal.value)) && entries == old(entries)
      ensures path !in old(entries) && refusal.None? ==> err.None? && entries == old(entries)[path := Symlink(destination)]
    {
      if path in entries {
        return Some(ItemExists(path));
      }
      if refusal.Some? {
        return Some(Refused(path, refusal.value));
      }
      entries := entries[path := Symlink(destination)];
      return None;
    }
  }

  // ---------------------------------------------------------------------
  // `installSymlink`

  /**
   * `installSymlink()` as written: the old target is removed only when
   * `fileExists` sees it, which it does not for a dangling link; the link
   * creation then meets the leftover entry and fails.
   */
  method InstallSymlinkAsWritten(platform: Platform, bundledScript: Option<string>, fs: FileSystem,
                                 refusals: Refusals, describe: FsError -> string) returns (r: InstallResult)
    modifies fs
    ensures platform == OtherPlatform ==> r == Failure(UnsupportedPlatformFailure) && fs.entries == old(fs.entries)
    ensures platform == MacCatalyst && bundledScript.None? ==> r == Failure(NoBundledCLIFailure) && fs.entries == old(fs.entries)
    ensures r.Success? <==> platform == MacCatalyst && bundledScript.Some? &&
                            (FileExists(old(fs.entries), TargetPath) ==> refusals.remove.None?) &&
                            (TargetPath in old(fs.entries) ==> FileExists(old(fs.entries), TargetPath)) &&
                            refusals.createLink.None?
    ensures r.Success? ==> r == Success(InstalledMessage) && fs.entries == old(fs.entries)[TargetPath := Symlink(bundledScript.value)]
    ensures r.Failure? && platform == MacCatalyst && bundledScript.Some? ==>
              FailurePrefix <= r.failureMessage && (fs.entries == old(fs.entries) || fs.entries == old(fs.entries) - {TargetPath})
    ensures platform == MacCatalyst && bundledScript.Some? &&
            TargetPath in old(fs.entries) && !FileExists(old(fs.entries), TargetPath) ==>
              r == Failure(FailurePrefix + describe(ItemExists(TargetPath))) && fs.entries == old(fs.entries)
  {
    if platform == OtherPlatform {
      return Failure(UnsupportedPlatformFailure);
    }
    if bundledScript.None? {
      return Failure(NoBundledCLIFailure);
    }
    if FileExists(fs.entries, TargetPath) {
      var err := fs.RemoveItem(TargetPath, refusals.remove);
      if err.Some? {
        return Failure(FailurePrefix + describe(err.value));
      }
    }
    var err := fs.CreateSymbolicLink(TargetPath, bundledScript.value, refusals.createLink);
    if err.Some? {
      return Failure(FailurePrefix + describe(err.value));
    }
    return Success(InstalledMessage);
  }

  /**
   * `installSymlink()` with the old target checked for presence without
   * following links: whatever is at the target, link or file, is replaced.
   */
  method InstallSymlink(platform: Platform, bundledScript: Option<string>, fs: FileSystem,
                        refusals: Refusals, describe: FsError -> string) returns (r: InstallResult)
    modifies fs
    ensures platform == OtherPlatform ==> r == Failure(UnsupportedPlatformFailure) && fs.entries == old(fs.entries)
    ensures platform == MacCatalyst && bundledScript.None? ==> r == Failure(NoBundledCLIFailure) && fs.entries == old(fs.entries)
    ensures r.Success? <==> platform == MacCatalyst && bundledScript.Some? &&
                            (TargetPath in old(fs.entries) ==> refusals.remove.None?) &&
                            refusals.createLink.None?
    ensures r.Success? ==> r == Success(InstalledMessage) && fs.entries == old(fs.entries)[TargetPath := Symlink(bundledScript.value)]
    ensures r.Failure? && platform == MacCatalyst && bundledScript.Some? ==>
              FailurePrefix <= r.failureMessage && (fs.entries == old(fs.entries) || fs.entries == old(fs.entries) - {TargetPath})
  {
    if platform == OtherPlatform {
      return Failure(UnsupportedPlatformFailure);
    }
    if bundledScript.None? {
      return Failure(NoBundledCLIFailure);
    }
    if TargetPath in fs.entries {
      var err := fs.RemoveItem(TargetPath, refusals.remove);
      if err.Some? {
        return Failure(FailurePrefix + describe(err.value));
      }
    }
    var err := fs.CreateSymbolicLink(TargetPath, bundledScript.value, refusals.createLink);
    if err.Some? {
      return Failure(FailurePrefix + describe(err.value));
    }
    return Success(InstalledMessage);
  }

  /**
   * The app was moved, so `/usr/local/bin/casa` is a link to a script that is
   * gone. The status reports "not installed, can install", yet the installer as
   * written fails with nothing refused; the corrected installer replaces the link.
   */
  method ReinstallOverDanglingLink(describe: FsError -> string) returns (asWritten: InstallResult, corrected: InstallResult)
    ensures asWritten == Failure(FailurePrefix + describe(ItemExists(TargetPath)))
    ensures corrected == Success(InstalledMessage)
  {
    var oldScript := "/Applications/Old/Casa.app/Contents/Resources/casa";
    var newScript := "/Applications/Casa.app/Contents/Resources/casa";
    var before := map[TargetPath := Symlink(oldScript), newScript := RegularFile];
    assert !FileExists(before, TargetPath);
    assert Status(MacCatalyst, FileExists(before, TargetPath), true) == CLIStatus(false, true, None);
    var fs1 := new FileSystem(before);
    asWritten := InstallSymlinkAsWritten(MacCatalyst, Some(newScript), fs1, Refusals(None, None), describe);
    var fs2 := new FileSystem(before);
    corrected := InstallSymlink(MacCatalyst, Some(newScript), fs2, Refusals(None, None), describe);
    assert FileExists(fs2.entries, TargetPath);
  }
}
