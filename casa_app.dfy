/**
 * The lifecycle controller (`CasaAppModel`): reacts to settings changes by
 * restarting, starting or stopping the API server and the HomeKit module,
 * keeps a status message, and drives the CLI installer.
 *
 * The server and the HomeKit manager are collaborators seen only through the
 * calls made on them, recorded in order; `server.isRunning` is read but is
 * owned by the server. The logger is the sequence of events logged.
 */
module CasaApp {
  import opened Wrappers
  import Decimal
  import opened Events
  import CasaSettings
  import CLIInstaller

  datatype Call = Start | Stop

  const StartingMessage := "Starting API..."
  const RestartingMessage := "Restarting API..."

  /** The status message shown for the server's running state. */
  function RunningMessage(isRunning: bool): (m: string)
    ensures m == "API started" <==> isRunning
    ensures m in {"API started", "API stopped"}
  {
    if isRunning then "API started" else "API stopped"
  }

  /** Everything the handlers read or write, as one value. */
  datatype AppState = AppState(
    lastPort: CasaSettings.UInt16,
    lastToken: string,
    lastHomeKitEnabled: bool,
    statusMessage: string,
    cliStatus: CLIInstaller.CLIStatus,
    serverRunning: bool,
    serverCalls: seq<Call>,
    homeKitCalls: seq<Call>,
    events: seq<Event>)

  /** The HomeKit calls made so far end with the call that matches the last recorded toggle. */
  predicate HomeKitTraceAgrees(st: AppState) {
    st.homeKitCalls == [] || st.homeKitCalls[|st.homeKitCalls| - 1] == (if st.lastHomeKitEnabled then Start else Stop)
  }

  /** The event logged for the outcome of an install. */
  function InstallEvent(result: CLIInstaller.InstallResult): (e: Event)
    ensures e.metadata == map["message" := result.Message()]
    ensures e.level == "error" <==> result.Failure?
    ensures result.Success? ==> e == Info("cli_install_success", map["message" := result.Message()])
    ensures result.Failure? ==> e == Event("error", "cli_install_failed", map["message" := result.Message()])
  {
    match result
    case Success(m) => Event("info", "cli_install_success", map["message" := m])
    case Failure(m) => Event("error", "cli_install_failed", map["message" := m])
  }

  class AppModel {
    const settings: CasaSettings.Settings
    const fs: CLIInstaller.FileSystem
    const platform: CLIInstaller.Platform
    /** Where the app bundle holds the CLI script, if it does. */
    const bundledScript: Option<string>
    /** `server.isRunning`. */
    var serverRunning: bool
    var lastPort: CasaSettings.UInt16
    var lastToken: string
    var lastHomeKitEnabled: bool
    var statusMessage: string
    var cliStatus: CLIInstaller.CLIStatus
    var serverCalls: seq<Call>
    var homeKitCalls: seq<Call>
    var events: seq<Event>

    function State(): AppState
      reads this
    {
      AppState(lastPort, lastToken, lastHomeKitEnabled, statusMessage, cliStatus,
               serverRunning, serverCalls, homeKitCalls, events)
    }

    /** What `CLIInstaller.status()` reports for the current file system. */
    function CurrentCLIStatus(): CLIInstaller.CLIStatus
      reads this, fs
    {
      CLIInstaller.Status(platform, CLIInstaller.FileExists(fs.entries, CLIInstaller.TargetPath), bundledScript.Some?)
    }

    /**
     * `init`: the fields start from the settings, then `observeSettings()`
     * subscribes to each published value, and every subscription is handed the
     * current value at once, in the order subscribed: port, token, autoStart,
     * HomeKit flag, onboarding flag, then the server's `isRunning` and
     * `lastError`. Only the autoStart and server replays have an effect.
     */
    constructor (settings: CasaSettings.Settings, fs: CLIInstaller.FileSystem, platform: CLIInstaller.Platform,
                 bundledScript: Option<string>, serverRunning: bool, serverLastError: Option<string>)
      ensures this.settings == settings && this.fs == fs && this.platform == platform && this.bundledScript == bundledScript
      ensures State() == AppState(
        settings.port, settings.authToken, settings.homeKitEnabled,
        if serverLastError.Some? then serverLastError.value else RunningMessage(serverRunning),
        CurrentCLIStatus(),
        serverRunning,
        if settings.autoStart && !serverRunning then [Start]
        else if !settings.autoStart && serverRunning then [Stop]
        else [],
        [],
        [Info("settings_autostart_changed", map["enabled" := BoolText(settings.autoStart)])])
    {
      this.settings := settings;
      this.fs := fs;
      this.platform := platform;
      this.bundledScript := bundledScript;
      this.serverRunning := serverRunning;
      lastPort := settings.port;
      lastToken := settings.authToken;
      lastHomeKitEnabled := settings.homeKitEnabled;
      statusMessage := "";
      cliStatus := CLIInstaller.Status(platform, CLIInstaller.FileExists(fs.entries, CLIInstaller.TargetPath), bundledScript.Some?);
      serverCalls := [];
      homeKitCalls := [];
      events := [];
      new;
      ghost var initial := State();
      HandlePortChange(settings.port);
      HandleAuthTokenChange(settings.authToken);
      assert State() == initial;
      HandleAutoStartChange(settings.autoStart);
      ghost var started := State();
      HandleHomeKitToggle(settings.homeKitEnabled);
      assert State() == started;
      ServerRunningDidChange(serverRunning);
      ServerErrorDidChange(serverLastError);
      RefreshCLIStatus();
    }

    /** The `server.$isRunning` subscription: the status message follows the server's state. */
    method ServerRunningDidChange(isRunning: bool)
      modifies this
      ensures State() == old(State()).(serverRunning := isRunning, statusMessage := RunningMessage(isRunning))
    {
      serverRunning := isRunning;
      statusMessage := RunningMessage(isRunning);
    }

    /** The `server.$lastError` subscription: an error, when there is one, becomes the status message. */
    method ServerErrorDidChange(error: Option<string>)
      modifies this
      ensures error.None? ==> State() == old(State())
      ensures error.Some? ==> State() == old(State()).(statusMessage := error.value)
    {
      if error.None? {
        return;
      }
      statusMessage := error.value;
    }

    /** A running server is stopped and started again; a stopped one is left alone. */
    method RestartIfNeeded()
      modifies this
      ensures !old(serverRunning) ==> State() == old(State())
      ensures old(serverRunning) ==>
        State() == old(State()).(statusMessage := RestartingMessage, serverCalls := old(serverCalls) + [Stop, Start])
    {
      if !serverRunning {
        return;
      }
      statusMessage := RestartingMessage;
      serverCalls := serverCalls + [Stop];
      serverCalls := serverCalls + [Start];
    }

    method HandlePortChange(newPort: CasaSettings.UInt16)
      modifies this
      ensures newPort == old(lastPort) ==> State() == old(State())
      ensures newPort != old(lastPort) ==>
        State() == old(State()).(
          lastPort := newPort,
          events := old(events) + [Info("settings_port_changed", map["port" := Decimal.IntToString(newPort)])],
          statusMessage := if serverRunning then RestartingMessage else old(statusMessage),
          serverCalls := old(serverCalls) + if serverRunning then [Stop, Start] else [])
    {
      if newPort == lastPort {
        return;
      }
      lastPort := newPort;
      events := events + [Info("settings_port_changed", map["port" := Decimal.IntToString(newPort)])];
      RestartIfNeeded();
    }

    method HandleAuthTokenChange(newToken: string)
      modifies this
      ensures newToken == old(lastToken) ==> State() == old(State())
      ensures newToken != old(lastToken) ==>
        State() == old(State()).(
          lastToken := newToken,
          events := old(events) + [Info("settings_token_changed", map["present" := BoolText(newToken != "")])],
          statusMessage := if serverRunning then RestartingMessage else old(statusMessage),
          serverCalls := old(serverCalls) + if serverRunning then [Stop, Start] else [])
      ensures newToken != old(lastToken) ==> (events[|events| - 1].metadata["present"] == "false" <==> newToken == "")
    {
      if newToken == lastToken {
        return;
      }
      lastToken := newToken;
      events := events + [Info("settings_token_changed", map["present" := BoolText(newToken != "")])];
      RestartIfNeeded();
    }

    method HandleAutoStartChange(enabled: bool)
      modifies this
      ensures State() == old(State()).(
        events := old(events) + [Info("settings_autostart_changed", map["enabled" := BoolText(enabled)])],
        statusMessage := if enabled && !serverRunning then StartingMessage else old(statusMessage),
        serverCalls := old(serverCalls) +
          if enabled && !serverRunning then [Start]
          else if !enabled && serverRunning then [Stop]
          else [])
    {
      events := events + [Info("settings_autostart_changed", map["enabled" := BoolText(enabled)])];
      if enabled && !serverRunning {
        statusMessage := StartingMessage;
        serverCalls := serverCalls + [Start];
      } else if !enabled && serverRunning {
        serverCalls := serverCalls + [Stop];
      }
    }

    method HandleHomeKitToggle(enabled: bool)
      modifies this
      ensures enabled == old(lastHomeKitEnabled) ==> State() == old(State())
      ensures enabled != old(lastHomeKitEnabled) ==>
        State() == old(State()).(
          lastHomeKitEnabled := enabled,
          events := old(events) + [Info("settings_homekit_toggle", map["enabled" := BoolText(enabled)])],
          homeKitCalls := old(homeKitCalls) + [if enabled then Start else Stop])
      ensures old(HomeKitTraceAgrees(State())) || enabled != old(lastHomeKitEnabled) ==> HomeKitTraceAgrees(State())
    {
      if enabled == lastHomeKitEnabled {
        return;
      }
      lastHomeKitEnabled := enabled;
      events := events + [Info("settings_homekit_toggle", map["enabled" := BoolText(enabled)])];
      if enabled {
        homeKitCalls := homeKitCalls + [Start];
      } else {
        homeKitCalls := homeKitCalls + [Stop];
      }
    }

    /** Exactly one server call: stop when running, start when stopped. */
    method ToggleServer()
      modifies this
      ensures old(serverRunning) ==>
        State() == old(State()).(events := old(events) + [Info("server_toggle_stop", map[])],
                                 serverCalls := old(serverCalls) + [Stop])
      ensures !old(serverRunning) ==>
        State() == old(State()).(events := old(events) + [Info("server_toggle_start", map[])],
                                 statusMessage := StartingMessage,
                                 serverCalls := old(serverCalls) + [Start])
    {
      if serverRunning {
        events := events + [Info("server_toggle_stop", map[])];
        serverCalls := serverCalls + [Stop];
      } else {
        events := events + [Info("server_toggle_start", map[])];
        statusMessage := StartingMessage;
        serverCalls := serverCalls + [Start];
      }
    }

    method RefreshCLIStatus()
      modifies this
      ensures State() == old(State()).(cliStatus := CurrentCLIStatus())
    {
      cliStatus := CLIInstaller.Status(platform, CLIInstaller.FileExists(fs.entries, CLIInstaller.TargetPath), bundledScript.Some?);
    }

    /**
     * `installCLI`: install the CLI with the installer as it is written, show the
     * outcome's message, log it ("error" on failure), then re-read the status.
     * `result` is what the installer returned.
     */
    method InstallCLI(refusals: CLIInstaller.Refusals, describe: CLIInstaller.FsError -> string)
      returns (ghost result: CLIInstaller.InstallResult)
      modifies this, fs
      ensures State() == old(State()).(
        statusMessage := result.Message(),
        events := old(events) + [Info("cli_install_requested", map[]), InstallEvent(result)],
        cliStatus := CurrentCLIStatus())
      ensures result.Success? <==> platform == CLIInstaller.MacCatalyst && bundledScript.Some? &&
                                   (CLIInstaller.FileExists(old(fs.entries), CLIInstaller.TargetPath) ==> refusals.remove.None?) &&
                                   (CLIInstaller.TargetPath in old(fs.entries) ==> CLIInstaller.FileExists(old(fs.entries), CLIInstaller.TargetPath)) &&
                                   refusals.createLink.None?
      ensures result.Success? ==>
                statusMessage == CLIInstaller.InstalledMessage &&
                fs.entries == old(fs.entries)[CLIInstaller.TargetPath := CLIInstaller.Symlink(bundledScript.value)]
      ensures platform == CLIInstaller.OtherPlatform ==> statusMessage == CLIInstaller.UnsupportedPlatformFailure
      ensures platform == CLIInstaller.MacCatalyst && bundledScript.None? ==> statusMessage == CLIInstaller.NoBundledCLIFailure
      ensures result.Failure? && platform == CLIInstaller.MacCatalyst && bundledScript.Some? ==>
                CLIInstaller.FailurePrefix <= statusMessage &&
                (fs.entries == old(fs.entries) || fs.entries == old(fs.entries) - {CLIInstaller.TargetPath})
      ensures (platform == CLIInstaller.MacCatalyst && bundledScript.Some? && CLIInstaller.TargetPath in old(fs.entries) &&
               !CLIInstaller.FileExists(old(fs.entries), CLIInstaller.TargetPath)) ==>
                statusMessage == CLIInstaller.FailurePrefix + describe(CLIInstaller.ItemExists(CLIInstaller.TargetPath)) &&
                events[|events| - 1].level == "error" && !cliStatus.isInstalled
    {
      events := events + [Info("cli_install_requested", map[])];
      var r := CLIInstaller.InstallSymlinkAsWritten(platform, bundledScript, fs, refusals, describe);
      result := r;
      ReportInstall(r);
    }

    /**
     * `installCLI` over the corrected installer, which replaces whatever is at
     * the target: a bundled regular file is then reported as installed.
     */
    method InstallCLICorrected(refusals: CLIInstaller.Refusals, describe: CLIInstaller.FsError -> string)
      returns (ghost result: CLIInstaller.InstallResult)
      modifies this, fs
      ensures State() == old(State()).(
        statusMessage := result.Message(),
        events := old(events) + [Info("cli_install_requested", map[]), InstallEvent(result)],
        cliStatus := CurrentCLIStatus())
      ensures result.Success? <==> platform == CLIInstaller.MacCatalyst && bundledScript.Some? &&
                                   (CLIInstaller.TargetPath in old(fs.entries) ==> refusals.remove.None?) &&
                                   refusals.createLink.None?
      ensures result.Success? ==>
                statusMessage == CLIInstaller.InstalledMessage &&
                fs.entries == old(fs.entries)[CLIInstaller.TargetPath := CLIInstaller.Symlink(bundledScript.value)]
      ensures result.Failure? && platform == CLIInstaller.MacCatalyst && bundledScript.Some? ==>
                CLIInstaller.FailurePrefix <= statusMessage &&
                (fs.entries == old(fs.entries) || fs.entries == old(fs.entries) - {CLIInstaller.TargetPath})
      ensures (result.Success? && bundledScript.value != CLIInstaller.TargetPath && bundledScript.value in old(fs.entries) &&
               old(fs.entries)[bundledScript.value].RegularFile?) ==> cliStatus.isInstalled
    {
      events := events + [Info("cli_install_requested", map[])];
      var r := CLIInstaller.InstallSymlink(platform, bundledScript, fs, refusals, describe);
      result := r;
      ReportInstall(r);
    }

    /** The part of `installCLI` after the installer returned: show, log, re-read the status. */
    method ReportInstall(r: CLIInstaller.InstallResult)
      modifies this
      ensures State() == old(State()).(
        statusMessage := r.Message(),
        events := old(events) + [InstallEvent(r)],
        cliStatus := CurrentCLIStatus())
    {
      match r {
        case Success(message) =>
          statusMessage := message;
          events := events + [Event("info", "cli_install_success", map["message" := message])];
        case Failure(message) =>
          statusMessage := message;
          events := events + [Event("error", "cli_install_failed", map["message" := message])];
      }
      RefreshCLIStatus();
    }

    /** Start or stop HomeKit to match the stored setting. */
    method InitializeModules()
      modifies this
      ensures State() == old(State()).(homeKitCalls := old(homeKitCalls) + [if settings.homeKitEnabled then Start else Stop])
    {
      if settings.homeKitEnabled {
        homeKitCalls := homeKitCalls + [Start];
      } else {
        homeKitCalls := homeKitCalls + [Stop];
      }
    }
  }
}
