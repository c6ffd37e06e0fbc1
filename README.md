# Casa core, modelled in Dafny

Casa is a Mac Catalyst app that exposes the user's HomeKit homes through a local
HTTP API and a command-line client. This project models the app's core:

- **CasaLogger** (`casa_logger.dfy`): the JSON-lines log file `casa.log`. Each
  write first checks the file's size. At or above `maxFileSize` it rotates
  `casa.log.(maxFiles-1)` … `casa.log.1` one index up, highest first, and moves
  `casa.log` to `casa.log.1`. It then appends one encoded entry and a newline,
  and bumps a 64-bit `revision` counter that wraps around. The log directory is a
  map from `Slot` (the active file or rotated index `j`) to bytes. The rotation
  loop is proved against a closed-form, slot-by-slot description (`RotatedSlot`).
- **Events** (`events.dfy`): the logger as its callers see it, an append-only
  sequence of `(level, message, metadata)` events. The HomeKit manager and the
  app model log into this view.
- **CasaSettings** (`casa_settings.dfy`): five settings loaded from a
  `UserDefaults` domain, with their defaults (port 14663, everything else empty
  or off). All five keys are written back on every assignment, except while
  loading. The domain's typed readers (`integer`, `bool` and `string` for a key)
  are modelled with their coercions. A stored string reads as an integer by its
  leading sign and digits. It reads as a Bool through the words true/YES and
  false/NO in any case, or otherwise as a non-zero integer.
- **HomeKit** (`homekit.dfy`): the `HomeKitManager` cache of homes and of the
  flattened accessory list. The lookup of a characteristic by UUID walks the
  live directory home by home, accessory by accessory, service by service. It
  returns the first match of the flattened characteristic list.
- **CLIInstaller** (`cli_installer.dfy`): the status table for
  `/usr/local/bin/casa` and the installer, which replaces that path with a
  symbolic link to the bundled script. The file system is a map from path to
  regular file or symbolic link, and `fileExists` follows links. The installer
  as written mishandles a dangling link; see "## Findings".
- **CasaApp** (`casa_app.dfy`): the handlers of `CasaAppModel`, which react to
  settings changes by restarting, starting or stopping the API server and the
  HomeKit module. They keep the status message, log what they do and drive the
  installer, which the app calls as written. The same flow over the corrected
  installer is modelled beside it. The server and the HomeKit module are recorded
  as the sequence of calls made on them. The server's published `isRunning` and
  `lastError` arrive as the two server subscriptions.
- **Decimal** (`decimal.dfy`) and **Wrappers** (`wrappers.dfy`) hold supporting
  definitions: Swift's decimal rendering of integers and its inverse, and
  `Option`/`Result`.

Inputs the core reads from its environment are parameters:

- the JSON encoder, the UTF-8 decoder and the current time (as a timestamp string);
- the directory's homes;
- the platform;
- the bundled script's location;
- the file operations the system refuses, and the text of their errors.

## Model

| member | source | states |
|---|---|---|
| CasaLogger.WrappingIncrement | Casa/CasaLogger.swift:68-70 | `revision &+= 1`: the new value is one more modulo 2^64. It is larger than the old one except when Int.max wraps to Int.min. |
| CasaLogger.RotationCheck | Casa/CasaLogger.swift:74-91 | Below `maxFileSize` (a missing file counts as size 0), the directory is left unchanged. Otherwise no active file remains and `casa.log.1` holds exactly the old active content. |
| CasaLogger.RotationMovesActiveToFirst | Casa/CasaLogger.swift:88-90 | After a rotation there is no `casa.log`, and `casa.log.1` holds what `casa.log` held, or is absent if `casa.log` was. |
| CasaLogger.RotationShiftsEachIndex | Casa/CasaLogger.swift:79-86 | For every k in 1..maxFiles-1, an existing `casa.log.k` reappears unchanged as `casa.log.(k+1)`, because the loop runs from the highest index down. |
| CasaLogger.RotationCreatesNothingAboveLimit | Casa/CasaLogger.swift:79-86 | Rotation leaves indices above max(maxFiles, 1) and non-positive indices as they were. `casa.log.maxFiles` is replaced only when `casa.log.(maxFiles-1)` existed. |
| CasaLogger.Appended | Casa/CasaLogger.swift:59-67 | The line is appended to the end of an existing active file, or becomes the content of a new one. Every other file is untouched. |
| CasaLogger.WriteAppendsOneLine | Casa/CasaLogger.swift:55-67 | Without rotation, a write keeps every earlier byte of `casa.log` and adds exactly the encoded entry and `0x0A`. After a rotation, or when there was no file, `casa.log` holds just that line. |
| CasaLogger.FailedEncodingAppendsNothing | Casa/CasaLogger.swift:56-58 | When encoding fails, the write is only the rotation check that ran before it. A rotation that happened is not undone. |
| CasaLogger.RotatedCountBound | Casa/CasaLogger.swift:79-91 | A directory whose rotated files all have indices in 1..maxFiles holds at most maxFiles rotated files. |
| CasaLogger.WriteKeepsWithinLimit | Casa/CasaLogger.swift:55-91 | With maxFiles >= 1, a write keeps every rotated file's index within 1..maxFiles. The number of rotated files therefore never exceeds maxFiles. |
| CasaLogger.RequestMetadata | Casa/CasaLogger.swift:42-48 | The request entry's metadata has exactly the keys method, path, status, requestId and latencyMs. Method, path and request id are stored verbatim; status and latency are stored as their decimal text. |
| CasaLogger.RequestMetadataParses | Casa/CasaLogger.swift:45-47 | The status and latency read back from the metadata are the numbers that were logged. |
| CasaLogger.Logger.constructor | Casa/CasaLogger.swift:17-29 | A logger starts with the given limits, the directory as it finds it, and revision 0. |
| CasaLogger.Logger.WithDefaults | Casa/CasaLogger.swift:17-19 | Without arguments, a logger rotates at 1,000,000 bytes and keeps up to 5 rotated files. |
| CasaLogger.Logger.ReadLog | Casa/CasaLogger.swift:51-53 | Reading gives the decoded text of `casa.log` when it exists and decodes. It gives "" when the file is missing or is not valid text. |
| CasaLogger.Logger.RotateIfNeeded | Casa/CasaLogger.swift:74-91 | The loop over indices maxFiles-1 down to 1, followed by the move of `casa.log`, leaves exactly the directory `RotationCheck` describes. |
| CasaLogger.ShiftOneIndex | Casa/CasaLogger.swift:80-85 | One pass of the loop moves `casa.log.i`, when present, over `casa.log.(i+1)`. This keeps the loop's slot-by-slot invariant. |
| CasaLogger.MoveActiveToFirst | Casa/CasaLogger.swift:88-90 | Removing `casa.log.1` and moving `casa.log` there completes the rotation slot by slot. |
| CasaLogger.Logger.Write | Casa/CasaLogger.swift:55-72 | The new directory is `AfterWrite` of the old one with the entry's encoding. The revision advances by a wrapping increment only when the entry was encoded. |
| CasaLogger.Logger.Log | Casa/CasaLogger.swift:31-39 | Writes the entry built from the timestamp, level, message and metadata. |
| CasaLogger.Logger.LogRequest | Casa/CasaLogger.swift:41-49 | Writes an "info" entry with message "request" and the request metadata. |
| Decimal.NatToStringWellFormed | Casa/CasaLogger.swift:45-47 | `String(n)` for n >= 0 is a non-empty string of digits whose value is n. |
| Decimal.ParseIntToString | Casa/CasaLogger.swift:45-47 | Every integer's decimal text, including a leading '-', reads back as that integer. |
| Events.BoolText | Casa/CasaApp.swift:116-118 | The logged text is "true" exactly when the flag is set, and "false" otherwise. |
| CasaSettings.Load | Casa/CasaSettings.swift:48-69 | Loading succeeds exactly when the stored port fits in 16 bits. It fails with that value otherwise, where `UInt16(storedPort)` would trap. A stored 0 or a missing port gives 14663. The token comes from the stored string, is a stored number in decimal or a stored Bool as "1"/"0", and is "" when absent. Each flag is false when its key is absent and follows `LoadFlag` otherwise. |
| CasaSettings.LoadFlag | Casa/CasaSettings.swift:53-57 | A missing key gives false. A stored Bool gives its value, a stored number gives whether it is non-zero, and a stored string gives its Bool reading. |
| CasaSettings.LeadingIntegerAgreesWithDecimal | Casa/CasaSettings.swift:50 | A stored string that is a decimal integer, such as any number's text, reads as that integer. |
| CasaSettings.LeadingDigitsStop | Casa/CasaSettings.swift:50 | The digits read from digits followed by text that starts with a non-digit are exactly those digits. |
| CasaSettings.LeadingIntegerIgnoresTrailingText | Casa/CasaSettings.swift:50 | Digits followed by text that starts with a non-digit read as the digits' value, so "12abc" reads as 12. |
| CasaSettings.LeadingIntegerSigned | Casa/CasaSettings.swift:50 | A '+' or '-' before the digits is accepted: "+12" reads as 12 and "-12" as -12, whatever non-digit text follows. |
| CasaSettings.LeadingIntegerWithoutDigits | Casa/CasaSettings.swift:50 | A string that starts with neither whitespace, a sign nor a digit reads as 0. |
| CasaSettings.BoolFromStringYes | Casa/CasaSettings.swift:56 | A stored "YES" reads as true. |
| CasaSettings.BoolFromStringNo | Casa/CasaSettings.swift:56 | A stored "NO" reads as false. |
| CasaSettings.BoolFromNumberText | Casa/CasaSettings.swift:56 | A number stored as its decimal text, "1" or "0" for instance, reads as true exactly when the number is non-zero. |
| CasaSettings.LoadReadsTextPort | Casa/CasaSettings.swift:50-51 | A port stored as decimal text loads exactly when it fits in 16 bits. A non-zero port then loads as that number. |
| CasaSettings.Persisted | Casa/CasaSettings.swift:77-84 | Persisting writes the five keys with the current values and leaves every other key alone. Loading the result gives the same values, except that port 0 reloads as 14663. |
| CasaSettings.Reloaded | Casa/CasaSettings.swift:27-28 | A reloaded port is never 0. Values with a non-zero port reload unchanged. |
| CasaSettings.PersistOverwrites | Casa/CasaSettings.swift:77-84 | Persisting twice is the same as persisting the later values once. |
| CasaSettings.EmptyStoreDefaults | CasaTests/CasaTests.swift:109-120 | An empty store loads as port 14663, an empty token and every flag off. |
| CasaSettings.Settings.constructor | Casa/CasaSettings.swift:48-69 | A new instance holds exactly what `Load` reads from its domain and is no longer loading. |
| CasaSettings.Settings.Persist | Casa/CasaSettings.swift:77-84 | Nothing is written while loading. Otherwise the domain becomes `Persisted` of its old contents, and loading it gives back the current values. |
| CasaSettings.Settings.SetPort | Casa/CasaSettings.swift:6-8 | Only the port changes, then the domain is persisted. |
| CasaSettings.Settings.SetAuthToken | Casa/CasaSettings.swift:9-11 | Only the token changes, then the domain is persisted. |
| CasaSettings.Settings.SetAutoStart | Casa/CasaSettings.swift:12-14 | Only autoStart changes, then the domain is persisted. |
| CasaSettings.Settings.SetHomeKitEnabled | Casa/CasaSettings.swift:15-17 | Only homeKitEnabled changes, then the domain is persisted. |
| CasaSettings.Settings.SetOnboardingComplete | Casa/CasaSettings.swift:18-20 | Only onboardingComplete changes, then the domain is persisted. |
| CasaSettings.Settings.Diagnostics | Casa/CasaSettings.swift:86-94 | The diagnostics hold exactly the five keys. `authTokenSet` is the Bool "a token is set", so false for an empty token; the other values are the fields themselves. |
| CasaSettings.FlagsPersistAcrossInstances | CasaTests/CasaTests.swift:122-136 | Three flags set on one instance over an empty domain are all read back as set by a fresh instance over the same domain. |
| HomeKit.FlatMapPrefix | Casa/HomeKitManager.swift:39-47 | The parts before element k, followed by element k's part, form a prefix of the flattening. |
| HomeKit.FlatMapMembership | Casa/HomeKitManager.swift:31 | An item is in a flattening exactly when it is in the part of some element. |
| HomeKit.FlatMapLength | Casa/HomeKitManager.swift:31 | A flattening's length is the sum of its parts' lengths. |
| HomeKit.FirstIndex | Casa/HomeKitManager.swift:42 | `first(where:)` scans to the first index whose identifier matches, or to the end. Nothing before it matches. |
| HomeKit.FirstWithId | Casa/HomeKitManager.swift:42 | The search gives nil exactly when no element carries the id. Otherwise it gives the element at the first matching index. |
| HomeKit.FirstWithIdPrefix | Casa/HomeKitManager.swift:39-47 | A match found in a prefix is the first match of the whole sequence. |
| HomeKit.FirstWithIdSkip | Casa/HomeKitManager.swift:39-47 | When the first part of a concatenation has no match, searching the whole is searching the second part. |
| HomeKit.FirstMatchAfter | Casa/HomeKitManager.swift:39-47 | A match in q, after a p without matches, is the first match of anything that p + q begins. |
| HomeKit.FoundInService | Casa/HomeKitManager.swift:41-44 | The early return from service s of accessory a of home h, with nothing matched before it, gives the first match of the whole directory. |
| HomeKit.LookupFailsOnlyWhenAbsent | Casa/HomeKitManager.swift:38-49 | The lookup gives nil exactly when no characteristic of any service, accessory or home carries the id. |
| HomeKit.CachedAccessoriesAreTheHomes | Casa/HomeKitManager.swift:31 | The cached accessory list holds exactly the accessories of the homes, and its length is the sum over the homes. |
| HomeKit.RefreshMetadata | Casa/HomeKitManager.swift:32-35 | The refresh entry's metadata has exactly the keys homes and accessories, and their texts read back as the two counts. |
| HomeKit.HomeKitManager.constructor | Casa/HomeKitManager.swift:9-14 | A new manager has empty caches and is not the directory's delegate. |
| HomeKit.HomeKitManager.Start | Casa/HomeKitManager.swift:16-20 | Starting makes the manager the delegate and caches the live homes and their accessories. It logs `homekit_start` and then the refresh. |
| HomeKit.HomeKitManager.Stop | Casa/HomeKitManager.swift:22-27 | Stopping detaches the delegate, empties both caches and logs `homekit_stop`. |
| HomeKit.HomeKitManager.RefreshData | Casa/HomeKitManager.swift:29-36 | The caches become the live homes and their flattened accessories. One refresh entry is logged with both counts. |
| HomeKit.HomeKitManager.CharacteristicWithId | Casa/HomeKitManager.swift:38-49 | The nested loops return the first match of the live directory's flattened characteristics, or nil. |
| HomeKit.HomeKitManager.CharacteristicWithIdString | Casa/HomeKitManager.swift:51-54 | Text that is not a UUID gives nil. Otherwise the result is the UUID lookup. |
| HomeKit.HomeKitManager.HomesDidUpdate | Casa/HomeKitManager.swift:59-62 | Logs `homekit_homes_updated`, then refreshes. |
| HomeKit.HomeKitManager.AuthorizationDidChange | Casa/HomeKitManager.swift:64-69 | Logs `homekit_auth_status` with the status in decimal, then refreshes. |
| CLIInstaller.InstallResult.Message | Casa/CLIInstaller.swift:7-12 | `message` is the payload of whichever case the result is. |
| CLIInstaller.Status | Casa/CLIInstaller.swift:16-32 | On Catalyst, the CLI is installed exactly when the target exists, and installable exactly when a script is bundled. A reason is given exactly off Catalyst, or when neither the target nor a script exists. A reason always means installing is impossible. |
| CLIInstaller.FileExists | Casa/CLIInstaller.swift:20 | A regular file at the path exists, and so does a link to a regular file. A link to a missing path does not exist, and nothing exists at a path with no entry. |
| CLIInstaller.FileSystem.RemoveItem | Casa/CLIInstaller.swift:46 | Removes the entry itself, or fails with no such item or with a refusal, leaving the entries unchanged. |
| CLIInstaller.FileSystem.CreateSymbolicLink | Casa/CLIInstaller.swift:48 | Fails when any entry, even a dangling link, is at the path. Otherwise it adds the link. |
| CLIInstaller.InstallSymlinkAsWritten | Casa/CLIInstaller.swift:34-56 | The installer as written. Success happens exactly on Catalyst with a bundled script and nothing refused, when the target is absent or `fileExists` sees it. Over a dangling link it fails with the "item exists" error and changes nothing. |
| CLIInstaller.InstallSymlink | Casa/CLIInstaller.swift:34-56 | The corrected installer. It succeeds exactly on Catalyst with a bundled script when nothing is refused, and the target then is a link to the script. The two fixed failures come first. A failure that comes from the file system carries the prefix "Failed to install symlink: " and at most removes the old target. |
| CLIInstaller.ReinstallOverDanglingLink | Casa/CLIInstaller.swift:45-48 | With a dangling link at the target and a bundled script, the installer as written fails with nothing refused, while the corrected one succeeds. |
| CasaApp.InstallEvent | Casa/CasaApp.swift:161-172 | A success is logged as info "cli_install_success" and a failure as error "cli_install_failed", each with the result's message. |
| CasaApp.RunningMessage | Casa/CasaApp.swift:85 | The message is "API started" exactly when the server runs, and "API stopped" otherwise. |
| CasaApp.AppModel.constructor | Casa/CasaApp.swift:39-95 | The model starts from the settings' port, token and HomeKit flag and from the current CLI status, then receives each subscription's current value. The port, token and HomeKit replays change nothing. The autoStart replay is logged and makes the start or stop call it calls for. The status message ends as the server's error if it has one, and otherwise as its running state. |
| CasaApp.AppModel.ServerRunningDidChange | Casa/CasaApp.swift:83-87 | The server's running state is recorded, and the status message becomes "API started" or "API stopped" to match. Nothing else changes. |
| CasaApp.AppModel.ServerErrorDidChange | Casa/CasaApp.swift:89-94 | No error changes nothing. An error becomes the status message and nothing else changes. |
| CasaApp.AppModel.RestartIfNeeded | Casa/CasaApp.swift:140-145 | A running server is stopped, then started, with the message "Restarting API...". A stopped server leaves everything unchanged. |
| CasaApp.AppModel.HandlePortChange | Casa/CasaApp.swift:97-104 | An unchanged port does nothing. A new port is recorded and logged in decimal, and the server is restarted if it runs. |
| CasaApp.AppModel.HandleAuthTokenChange | Casa/CasaApp.swift:106-113 | An unchanged token does nothing. A new token is recorded and logged as present ("false" exactly when it is empty), and the server is restarted if it runs. |
| CasaApp.AppModel.HandleAutoStartChange | Casa/CasaApp.swift:115-125 | The change is always logged. Enabling starts a stopped server with "Starting API..."; disabling stops a running one. Otherwise no server call is made. |
| CasaApp.AppModel.HandleHomeKitToggle | Casa/CasaApp.swift:127-138 | An unchanged flag does nothing. A change is recorded, logged and followed by exactly one start or stop of HomeKit. The last HomeKit call then agrees with the recorded flag. |
| CasaApp.AppModel.ToggleServer | Casa/CasaApp.swift:147-156 | Exactly one server call is made: stop when running, start (with "Starting API...") when stopped. Each is logged. |
| CasaApp.AppModel.InstallCLI | Casa/CasaApp.swift:158-174 | The request and the outcome are logged, the outcome's message becomes the status message, and the CLI status is re-read. It uses the installer as written. Success happens exactly when that installer succeeds; then the message is "Symlink installed at /usr/local/bin/casa" and the target is a link to the script. The two fixed failures show their own messages. A failure from the file system shows the prefix "Failed to install symlink: ". Over a dangling link it fails with the "item exists" error, logs at level "error", and the CLI stays not installed. |
| CasaApp.AppModel.InstallCLICorrected | Casa/CasaApp.swift:158-174 | The same flow over the corrected installer. Success happens exactly on Catalyst with a bundled script and nothing refused, and then a link to a bundled regular file is reported as installed. |
| CasaApp.AppModel.ReportInstall | Casa/CasaApp.swift:161-173 | The outcome's message becomes the status message, and the outcome is logged ("error" exactly for a failure). The CLI status is re-read. |
| CasaApp.AppModel.RefreshCLIStatus | Casa/CasaApp.swift:217-219 | Only the CLI status changes, to what `status()` reports for the current file system. |
| CasaApp.AppModel.InitializeModules | Casa/CasaApp.swift:209-215 | Exactly one HomeKit call is made, start or stop, as the stored setting says. |

## Left out

- CasaApp.AppModel.HandleAuthTokenChange: tokens are compared as character sequences, without Unicode canonical equivalence. Swift's `String` comparison treats a precomposed "é" and "e" followed by a combining accent as equal, so the model logs and restarts where the app would not. The two agree on normalized and on ASCII input.
- CasaSettings.BoolFromString: the words "true", "yes", "false" and "no" are matched with ASCII case folding only, where Foundation's case-insensitive comparison folds other letters too (a dotted or dotless "i", for instance); the two agree on ASCII input.
- Concurrency: the logger's serial queue and the hop to the main queue that bumps `revision` are sequential here. A write completes, rotation through the revision update, before the next starts.
- JSON encoding of log entries, ISO 8601 timestamps and UTF-8 decoding are parameters: the encoder and decoder functions and the timestamp string.
- The log directory's location (`~/Library/Logs/Casa`, or `/tmp` as fallback) and its creation are I/O. The model starts from whatever the directory holds.
- `CasaLogger.Logger.Write`: the `FileHandle` append and the atomic write of a new file are one `Appended` step. A write that fails after rotating is not modelled.
- `CasaSettings.Settings.constructor` requires the stored port to be within 0..65535, because `UInt16(storedPort)` traps otherwise. That error path is `Load`'s `PortOutOfRange` result. `init()` over the standard domain is the same as `init(defaults:)` over a given domain, so it is not modelled separately.
- The `UserDefaults` coercions cover stored integers, Bools and strings. Floating-point and other property-list values are not modelled. The integer reading of a string is unbounded; the platform's overflow handling for very long digit strings is not modelled. Leading whitespace is spaces, tabs, carriage returns and newlines only.
- Combine: after the replays in `CasaApp.AppModel.constructor`, each later assignment to a setting is modelled as a direct call of its handler with the new value.
- What `HomeKitServer.start()`/`stop()` do is not modelled: HomeKitServer is not part of this model. `CasaApp.AppModel` records the server calls. Its `serverRunning` changes only when the server publishes a new state through `ServerRunningDidChange`. The constructor replays the server state it is given, without any change a replayed `start()` might already have caused.
- `CasaApp.AppModel`: HomeKit is recorded as a sequence of start and stop calls. Their effect on the manager is modelled separately in `HomeKit.HomeKitManager`.
- `copyDiagnostics`, `copyLogs`, `showToast` and `checkForUpdates` are UI, pasteboard, timer and updater code, and are not modelled.
- The app delegate's launch sequence and the `@main` scene are not modelled. The HTTP server, the command-line client and the SwiftUI views are not part of this model.
- The HomeKit manager's log entries are an event sequence (`Events.EventLog`), not bytes in the log file.
- HomeKit objects other than the identifier and type of a characteristic, such as characteristic values, rooms and zones, are not modelled. UUID parsing is a parameter.
- `CasaLogger.Logger.RotateIfNeeded`: the source ignores errors from `removeItem` and `moveItem` during rotation (`try?`). The model assumes every remove and move succeeds, so a half-done rotation is not modelled.
- `CasaLogger.RotationCreatesNothingAboveLimit`: with maxFiles <= 0 the code still moves `casa.log` to `casa.log.1`. The model follows the code, so that lemma bounds indices by max(maxFiles, 1) rather than by maxFiles.

## Findings

| source | as written | input that shows it | evidently intended | confidence | as-written member | corrected member |
|---|---|---|---|---|---|---|
| Casa/CLIInstaller.swift:45-48 | The old target is removed only when `fileExists(atPath:)` reports it. That call follows symbolic links, so a dangling link at the target is left in place, and `createSymbolicLink` then fails because an item exists. | `/usr/local/bin/casa` is a link to a script that no longer exists, for example after the app was moved, and the bundle has a script. `status()` reports "not installed, can install", yet installing fails with nothing refused. | Remove whatever entry is at the target, link or file, before creating the link. | not executed | CLIInstaller.InstallSymlinkAsWritten, CLIInstaller.ReinstallOverDanglingLink | CLIInstaller.InstallSymlink, CasaApp.AppModel.InstallCLICorrected |
