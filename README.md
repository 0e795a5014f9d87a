# superwhisper-linux, modelled in Dafny

superwhisper-linux is a push-to-talk dictation tool for Hyprland/Wayland.
A hotkey starts and stops a microphone recording. The audio is put on a queue,
and a worker transcribes it with faster-whisper. The text is then copied to
the clipboard, pasted, and announced by a desktop notification. A tray icon
shows the state and lets the user pick the microphone and the model.

This project models the decision rules of that pipeline; devices, the
speech engine, subprocesses and the desktop are oracle parameters:

- `Audio` (audio.py): the `AudioRecorder` state machine (idle and
  recording, a chunk buffer filled by the stream callback, the device
  sample rate with its 16000 Hz fallback) and the microphone filter and
  sort of `list_audio_devices`.
- `Transcribe` (transcribe.py): CUDA detection, resolution of the "auto"
  device and compute type, the CUDA to CPU fall-back, idempotent loading,
  and the text of a transcription.
- `App` (main.py): the `keybind` hotkey split, the argv dispatch of
  `main`, and the `SuperWhisper` application: restoring the saved
  microphone, the hotkey toggle, the empty-audio short-circuit, and one
  iteration of the worker loop (drain to the latest buffer, suppression
  of stale results, survival after errors). Effects the application has
  on the outside (notifications, clipboard copies) are kept as an event
  log.
- `Tray` (tray.py): microphone pre-selection, the checkmark rewriting of
  item labels, model labels, the toggle callbacks and the icon choice.
- `Deps` (deps.py): classification of missing dependencies and the
  de-duplicated pacman package list.
- `Clipboard` (clipboard.py): terminal detection, the paste-shortcut
  choice, the step order of `auto_paste`, and the command check.
- `Notifications` (notifications.py): the libnotify initialisation flag,
  the enable switches, the urgency and sound tables, and the preview of a
  transcription.
- `Strings` and `Wrappers`: the Python string operations the code relies
  on (`lower`, `strip`, `split`, `join`, `in`), and `Option`/`Result`/`Outcome`.

Sound samples are an abstract element type `S`. The queue is a `seq` of
buffers. A worker iteration takes as an input the buffers that arrive
while it transcribes, which turns the worker thread into a sequential
queue discipline.

## Model

| member | source | states |
|---|---|---|
| Audio.Resample | src/superwhisper/audio.py:12-22 | equal rates return the audio unchanged |
| Audio.ConcatAppend | src/superwhisper/audio.py:105-107 | flattening the chunk list distributes over appending chunk lists |
| Audio.ConcatLength | src/superwhisper/audio.py:105-107 | the flattened buffer holds as many samples as all chunks together |
| Audio.Recorded | src/superwhisper/audio.py:101-117 | no chunks give an empty buffer; at 16000 Hz the result is exactly the chunks concatenated in order |
| Audio.AudioRecorder.constructor | src/superwhisper/audio.py:31-38 | idle, empty buffer, no stream, rate 16000, the given device |
| Audio.AudioRecorder.SetDevice | src/superwhisper/audio.py:40-54 | no device or a failed query leaves the rate at 16000, otherwise the queried rate; recording state untouched |
| Audio.AudioRecorder.AudioCallback | src/superwhisper/audio.py:56-66 | a chunk is appended, in arrival order, only while recording |
| Audio.AudioRecorder.Start | src/superwhisper/audio.py:68-89 | buffer emptied and recording set before the stream opens; the rate is re-queried only when still at the fallback; a stream failure is raised |
| Audio.AudioRecorder.Stop | src/superwhisper/audio.py:91-119 | afterwards idle, no stream, empty buffer; returns the recorded audio (empty when nothing arrived, even without a start) |
| Audio.AudioRecorder.IsRecording | src/superwhisper/audio.py:121-125 | reports the recording flag |
| Audio.CaptureSession | src/superwhisper/audio.py:56-119 | start, chunks, stop at 16000 Hz returns every chunk in order and leaves the recorder idle |
| Audio.SelectMembership | src/superwhisper/audio.py:154-183 | under any keep rule, a record is selected iff its host entry is kept, under its enumeration index |
| Audio.SelectIndicesIncrease | src/superwhisper/audio.py:154-183 | under any keep rule, selected records carry increasing enumeration indices within range |
| Audio.FilteredMembership | src/superwhisper/audio.py:154-183 | a device record is kept iff its host entry passes every filter, under its enumeration index |
| Audio.FilteredIndicesIncrease | src/superwhisper/audio.py:154-183 | kept devices keep their enumeration indices, in increasing order |
| Audio.KeyLeTotal | src/superwhisper/audio.py:186 | the sort key (hardware first, then name) compares any two devices |
| Audio.KeyLeTrans | src/superwhisper/audio.py:186 | the sort key order is transitive |
| Audio.InsertPermutes | src/superwhisper/audio.py:186 | one insertion step keeps every device |
| Audio.InsertSorted | src/superwhisper/audio.py:186 | one insertion step keeps the list sorted |
| Audio.SortDevicesCorrect | src/superwhisper/audio.py:186 | the sort result is sorted and a permutation of its input |
| Audio.ListAudioDevices | src/superwhisper/audio.py:134-189 | the loop's result is the stable sort of the filtered devices: sorted by key and a permutation of exactly the devices that pass |
| Audio.ListedIff | src/superwhisper/audio.py:155-177 | a device is listed iff it has 1 to 8 input channels, is not virtual, has no negative keyword, and is hardware or has a microphone keyword |
| Audio.NegativeOverridesHardware | src/superwhisper/audio.py:166-170 | a negative keyword excludes a device even when it is `(hw:` |
| Audio.HdmiOutputExcluded | src/superwhisper/audio.py:166-170 | an HDMI output on a hardware port is never listed |
| Audio.AggregatorExcluded | src/superwhisper/audio.py:172-174 | more than 8 input channels excludes a device |
| Transcribe.CheckCudaAvailable | src/superwhisper/transcribe.py:20-27 | true iff the CUDA compute-type query succeeds with a non-empty list |
| Transcribe.ResolveDevice | src/superwhisper/transcribe.py:51-54 | "auto" becomes cuda iff CUDA is available, else cpu; any other device is used as given |
| Transcribe.ResolveComputeType | src/superwhisper/transcribe.py:57-60 | "auto" becomes float16 iff the device is cuda, else int8; any other type as given |
| Transcribe.StripAll | src/superwhisper/transcribe.py:111-115 | each segment's text is stripped, one for one |
| Transcribe.TextOf | src/superwhisper/transcribe.py:97-118 | empty audio and an engine error give ""; otherwise the stripped segment texts joined by single spaces |
| Transcribe.LoadIdempotent | src/superwhisper/transcribe.py:47-48 | with a model loaded, loading keeps it; a freshly loaded model loads again to itself |
| Transcribe.AutoSelection | src/superwhisper/transcribe.py:51-60 | with both settings "auto", a first successful construction is cuda/float16 iff CUDA is usable, else cpu/int8 |
| Transcribe.CudaFallback | src/superwhisper/transcribe.py:67-84 | a failed CUDA construction is retried on cpu/int8, and raises only that retry's error |
| Transcribe.NonCudaFailureRaised | src/superwhisper/transcribe.py:85-89 | a failed construction on any other device raises its own error |
| Transcribe.LoadedOnChosenOrCpu | src/superwhisper/transcribe.py:67-89 | a loaded model is on the chosen device with its compute type, or on the cpu/int8 fall-back |
| Transcribe.JoinSegmentsAppend | src/superwhisper/transcribe.py:111-115 | one more segment adds one space and its stripped text |
| Transcribe.JoinSegmentsLength | src/superwhisper/transcribe.py:111-115 | the text length is the stripped segment lengths plus one space between each two |
| Transcribe.Transcriber.constructor | src/superwhisper/transcribe.py:33-43 | the requested settings, no model, actual device cpu |
| Transcribe.Transcriber.LoadModel | src/superwhisper/transcribe.py:45-91 | succeeds iff the load rule gives a model; on success it is stored with its device as actual, on failure the error is raised and nothing changes |
| Transcribe.Transcriber.Transcribe | src/superwhisper/transcribe.py:93-118 | loads first (raising its error), then "" for empty audio or an engine error, else the joined stripped segments |
| Tray.RelabelShape | src/superwhisper/tray.py:222-231 | a rewritten label is the selection's prefix followed by the text after the old prefix |
| Tray.LabelTextOfPrefix | src/superwhisper/tray.py:222-231 | the text after either prefix reads back unchanged |
| Tray.RelabelPrefix | src/superwhisper/tray.py:219-233 | a rewritten label starts with the checkmark iff selected, otherwise with three spaces |
| Tray.RelabelKeepsText | src/superwhisper/tray.py:222-231 | rewriting keeps the text after the prefix |
| Tray.RelabelTwice | src/superwhisper/tray.py:222-231 | only the last rewrite counts, so rewriting is idempotent |
| Tray.RelabelPrefixed | src/superwhisper/tray.py:222-231 | a label with either prefix is rewritten to the selection's prefix before the same text |
| Tray.RelabelBuiltLabel | src/superwhisper/tray.py:174-176 | rewriting a label as the submenu built it gives the label built for the new selection |
| Tray.RelabelAll | src/superwhisper/tray.py:217-233 | the rewrite keeps the same set of items |
| Tray.RelabelAllIdempotent | src/superwhisper/tray.py:217-233 | rewriting all items twice for the same device equals rewriting once |
| Tray.TargetName | src/superwhisper/tray.py:165-166 | the current name if non-empty, else the saved name if non-empty, else none |
| Tray.BuiltItems | src/superwhisper/tray.py:163-187 | every listed device has an item carrying its selection-dependent label |
| Tray.BuiltKeys | src/superwhisper/tray.py:163-187 | an index has an item iff some listed device has that index |
| Tray.LastSelectedIsSelected | src/superwhisper/tray.py:165-184 | the pre-selected device is one the rule selects; none only when the rule selects none |
| Tray.ModelLabelMarker | src/superwhisper/tray.py:263-265 | a model label ends with " [not downloaded]" iff the model is not downloaded, and starts with the checkmark iff selected |
| Tray.FirstModel | src/superwhisper/tray.py:255-257 | the first entry of that name, or none when no entry has the name |
| Tray.UniqueEntry | src/superwhisper/tray.py:251-263 | with one entry per name, size and download status come from that entry |
| Tray.FirstUnique | src/superwhisper/tray.py:255-257 | the size lookup finds an entry when no earlier entry shares its name |
| Tray.LastUnique | src/superwhisper/tray.py:251-260 | the download status is an entry's own when no later entry shares its name |
| Tray.UpdatedModelItems | src/superwhisper/tray.py:247-267 | the model items keep the same names |
| Tray.UpdatedModelLabel | src/superwhisper/tray.py:253-267 | an item of an unknown model keeps its label; a known model's label has the checkmark iff it is the current model, reads `name (size)` with the size of its first entry, and has the "not downloaded" marker iff its download status is false |
| Tray.ModelLabelText | src/superwhisper/tray.py:263 | after its prefix a model label reads `name (size)` |
| Tray.IconFor | src/superwhisper/tray.py:287-310 | recording shows while recording, else transcribing if transcribing, else idle |
| Tray.TrayIcon.constructor | src/superwhisper/tray.py:25-53 | idle, no indicator or items, the saved device name as current |
| Tray.TrayIcon.PopulateMicSubmenu | src/superwhisper/tray.py:127-196 | the items are exactly the built labels; the current device becomes the last selected one, else stays |
| Tray.TrayIcon.UpdateDeviceLabels | src/superwhisper/tray.py:217-233 | every item is rewritten for the current device |
| Tray.TrayIcon.OnDeviceToggled | src/superwhisper/tray.py:204-215 | only an active toggle changes the current index and name, relabels, and fires the callback |
| Tray.TrayIcon.UpdateModelLabels | src/superwhisper/tray.py:247-267 | the model items are rebuilt against the models found now |
| Tray.TrayIcon.OnModelToggled | src/superwhisper/tray.py:235-245 | only an active toggle changes the current model, relabels, and fires the callback |
| Tray.TrayIcon.CreateMenu | src/superwhisper/tray.py:55-125 | the built model items are added to the existing ones (a new label wins for the same name), then a filled microphone submenu |
| Tray.TrayIcon.Run | src/superwhisper/tray.py:314-327 | the indicator appears with the idle icon and the menu is built, its model items added to the existing ones |
| Tray.TrayIcon.SetRecording | src/superwhisper/tray.py:283-298 | sets the flag; the indicator then shows the icon for the new state |
| Tray.TrayIcon.SetTranscribing | src/superwhisper/tray.py:300-312 | sets the flag; the icon changes only when not recording |
| App.ParseHotkey | src/superwhisper/main.py:32-34 | neither part holds a '+'; a hotkey without '+' has an empty modifier and is the key |
| App.HotkeyOfParts | src/superwhisper/main.py:32-34 | for any number of `+`-free parts joined by `+`, the modifier is the first part when there are several (else empty) and the key is the last |
| App.BindLineOfHotkey | src/superwhisper/main.py:31-43 | for a `MOD+KEY` hotkey the printed bind line is `  bind = MOD, KEY, exec, superwhisper toggle` |
| App.BindLineOfKey | src/superwhisper/main.py:31-43 | for a hotkey without `+` the bind line has an empty modifier and the whole hotkey as key |
| App.HotkeyRoundTrip | src/superwhisper/main.py:32-34 | `MOD+KEY` parses back to that modifier and key |
| App.MiddleModifiersDropped | src/superwhisper/main.py:32-34 | `A+B+K` binds modifier A and key K |
| App.Dispatch | src/superwhisper/main.py:77-121 | each of toggle, keybind, install, uninstall, status and -h/--help is chosen iff it is the first argument; install uses systemd iff `--systemd` is anywhere; with no or another first argument the app starts iff no dependency is missing and exits otherwise |
| App.ExitCode | src/superwhisper/main.py:52-56 | toggle exits 0 iff the signal was sent; missing dependencies exit 1 (lines 119-121) |
| App.SubcommandsSkipDependencyCheck | src/superwhisper/main.py:80-121 | a subcommand runs the same whether dependencies are missing or not |
| App.FirstNamed | src/superwhisper/main.py:162-172 | the index of a device with the saved name, none iff no device has it |
| App.FirstNamedAt | src/superwhisper/main.py:162-172 | the match is the first device with the name |
| App.WorkerEvents | src/superwhisper/main.py:236-264 | an error is reported; a stale result does nothing; empty text is a no-speech notice; other text is copied and announced |
| App.CopiedOnlyWhenLatest | src/superwhisper/main.py:240-257 | text is copied only when it is the latest, non-empty result and the copy did not fail |
| App.SuperWhisper.constructor | src/superwhisper/main.py:134-154 | components built from the configuration; the saved microphone restored |
| App.SuperWhisper.RestoreMicrophone | src/superwhisper/main.py:156-172 | the first device with the saved name becomes the recorder's device; no match leaves it unchanged |
| App.SuperWhisper.StartRecording | src/superwhisper/main.py:181-187 | the recorder starts; on success the tray shows recording and a started notice is logged |
| App.SuperWhisper.StopRecording | src/superwhisper/main.py:189-212 | empty audio is never queued, gives an error notice and clears transcribing; other audio is queued once |
| App.SuperWhisper.OnHotkey | src/superwhisper/main.py:174-179 | stops when recording, starts otherwise |
| App.SuperWhisper.Drain | src/superwhisper/main.py:220-234 | the queue is emptied and the last waiting buffer is the one kept |
| App.SuperWhisper.Report | src/superwhisper/main.py:240-264 | the events of the outcome: error reported with transcribing cleared, stale result dropped, otherwise copy and announcement or no-speech |
| App.SuperWhisper.WorkerStep | src/superwhisper/main.py:214-264 | the last queued buffer is transcribed, the queue is drained, a stale result is suppressed, errors are reported, and the application stays valid |
| App.SuperWhisper.OnDeviceChange | src/superwhisper/main.py:271-276 | the recorder switches device and the name is stored in the saved configuration |
| App.SuperWhisper.Run | src/superwhisper/main.py:278-318 | the model loads first; on failure no tray exists, on success the tray runs idle |
| Deps.CommandDeps | src/superwhisper/deps.py:20-30 | at most one entry per command |
| Deps.GuiDeps | src/superwhisper/deps.py:33-50 | no error adds nothing; "AppIndicator3" wins over "Gtk"; an error naming neither adds nothing |
| Deps.CheckAll | src/superwhisper/deps.py:15-64 | the command entries, then the GUI entry, then libnotify when its probe failed |
| Deps.CommandDepsShape | src/superwhisper/deps.py:20-30 | each command not found has an entry installed with `sudo pacman -S` and its package, and only those do |
| Deps.LibnotifyOnlyFromItsProbe | src/superwhisper/deps.py:52-62 | libnotify is listed iff its probe failed |
| Deps.AllPacman | src/superwhisper/deps.py:15-64 | every entry is installed with pacman |
| Deps.CommandOrder | src/superwhisper/deps.py:20-30 | wl-copy's entry comes before wtype's |
| Deps.PackageOf | src/superwhisper/deps.py:83-84 | the package is `split()[-1]`: a non-empty whitespace-free run that starts the line or follows whitespace, with only whitespace after it |
| Strings.LastWordUnique | src/superwhisper/deps.py:84 | a line has only one such last word, so that property determines the package |
| Deps.PackageOfInstallLine | src/superwhisper/deps.py:83-84 | the package of `sudo pacman -S pkg` is pkg |
| Deps.DedupCorrect | src/superwhisper/deps.py:80-86 | the de-duplicated list has no duplicates and the same members |
| Deps.DedupPrefix | src/superwhisper/deps.py:80-86 | later words never reorder earlier ones: first-occurrence order |
| Deps.DedupOfDistinct | src/superwhisper/deps.py:80-86 | a list without duplicates is kept as it is |
| Deps.DedupKeepsFirstPlace | src/superwhisper/deps.py:80-86 | a repeated package keeps its first place |
| Deps.PacmanPackages | src/superwhisper/deps.py:80-86 | the loop gives the de-duplicated pacman words, with no duplicates, covering every pacman entry |
| Deps.PacmanWordsCover | src/superwhisper/deps.py:83-84 | every pacman install line contributes its package |
| Deps.PacmanWordsFrom | src/superwhisper/deps.py:83-84 | every package word comes from a pacman install line |
| Deps.InstallAllLine | src/superwhisper/deps.py:88-89 | the combined line is printed iff there are packages, as a pacman command; for packages without spaces, the text after the command splits on spaces back into exactly the packages |
| Clipboard.TerminalClasses | src/superwhisper/clipboard.py:89 | a missing or empty custom set falls back to the defaults |
| Clipboard.IsTerminal | src/superwhisper/clipboard.py:85-90 | no class or an empty one is never a terminal; otherwise exact membership |
| Clipboard.CustomSetReplacesDefaults | src/superwhisper/clipboard.py:89-90 | a non-empty custom set replaces the defaults |
| Clipboard.EmptyCustomSetIsDefault | src/superwhisper/clipboard.py:89 | an empty custom set behaves as none |
| Clipboard.KittyDetected | src/superwhisper/clipboard.py:13-34 | kitty is a default terminal; matching is case-sensitive |
| Clipboard.ActiveWindowClass | src/superwhisper/clipboard.py:62-82 | a class only from a successful non-empty probe with a non-empty class, lowercased |
| Clipboard.LowerIdempotent | src/superwhisper/clipboard.py:75 | lowercasing twice equals once |
| Clipboard.ProbeCaseInsensitive | src/superwhisper/clipboard.py:75-90 | for any successful probe with non-blank output, a window is detected by its lowercased class |
| Clipboard.PasteArgs | src/superwhisper/clipboard.py:100-117 | Ctrl+Shift+V for terminals, Ctrl+V otherwise |
| Clipboard.SendPasteShortcut | src/superwhisper/clipboard.py:93-124 | true iff the run completes; false on timeout or non-zero exit; launch errors raised |
| Clipboard.AutoPaste | src/superwhisper/clipboard.py:151-180 | a failed copy returns false and sends nothing; otherwise the shortcut matching the window, with its result |
| Clipboard.AutoPasteShift | src/superwhisper/clipboard.py:165-180 | Ctrl+Shift+V is sent iff the copy worked and the window is a terminal |
| Clipboard.CheckDependencies | src/superwhisper/clipboard.py:37-43 | the commands not found, wl-copy before wtype |
| Notifications.UrgencyOf | src/superwhisper/notifications.py:66-72 | low and critical by name; any other name is normal |
| Notifications.SoundId | src/superwhisper/notifications.py:86-93 | a known sound maps through the table; any other name passes unchanged |
| Notifications.SoundLookups | src/superwhisper/notifications.py:86-93 | the error sound is dialog-error; an unknown name reaches the theme as given |
| Notifications.Preview | src/superwhisper/notifications.py:133 | text of at most 100 characters is kept; longer text is its first 100 characters and "..." |
| Notifications.PreviewBounds | src/superwhisper/notifications.py:133 | a preview is at most 103 long and starts with the text's own opening |
| Notifications.NotificationManager.constructor | src/superwhisper/notifications.py:20-24 | not initialised, nothing shown or played |
| Notifications.NotificationManager.Initialize | src/superwhisper/notifications.py:26-34 | the first call initialises libnotify and probes the backends; later calls do nothing |
| Notifications.NotificationManager.CheckAudioBackends | src/superwhisper/notifications.py:36-55 | the backend flags are what the probes find |
| Notifications.NotificationManager.Shutdown | src/superwhisper/notifications.py:163-167 | releases libnotify only if it is held |
| Notifications.NotificationManager.Notify | src/superwhisper/notifications.py:57-79 | nothing when disabled (backend flags unchanged); otherwise initialises on demand, probing both sound backends the first time, and shows with the mapped urgency |
| Notifications.NotificationManager.PlaySound | src/superwhisper/notifications.py:81-108 | nothing when feedback is off or paplay is absent; otherwise the mapped sound file |
| Notifications.NotificationManager.NotifyRecordingStarted | src/superwhisper/notifications.py:110-118 | the recording notice and the start sound |
| Notifications.NotificationManager.NotifyRecordingStopped | src/superwhisper/notifications.py:120-128 | the processing notice and the stop sound |
| Notifications.NotificationManager.NotifyTranscriptionComplete | src/superwhisper/notifications.py:130-140 | the done notice with the duration and the preview, and the complete sound |
| Notifications.NotificationManager.NotifyNoSpeech | src/superwhisper/notifications.py:142-150 | a low-urgency notice and no sound |
| Notifications.NotificationManager.NotifyError | src/superwhisper/notifications.py:152-161 | a critical notice and the error sound |
| Notifications.InitShutdownCycle | src/superwhisper/notifications.py:26-34 | initialising twice, shutting down twice, and notifying initialises libnotify once per period |

## Left out

- Floating point: the interpolated values and length of `resample` for differing rates (an interpolation parameter), the RMS level of the callback and `current_level`, the maximum-amplitude warning in `stop`, and the float-to-int sample rate conversion (rates are integers).
- Audio.Resample: states only the identity case; what interpolation produces is a parameter.
- Concurrency: the recorder lock, the worker thread and the blocking queue. Steps are sequential. The blocking `get` becomes the requirement that the queue is not empty. Buffers arriving during a transcription are an input of `WorkerStep`.
- Foreign libraries as inputs: `sounddevice` queries and streams (query results and stream errors), faster-whisper construction and inference (`Backend`), libnotify, GStreamer and the CUDA library preload.
- Subprocesses as inputs: wl-copy (whether the copy fails), hyprctl (`WindowProbe`), wtype (`RunOutcome`), `shutil.which` (`onPath`), paplay and systemctl.
- The GLib idle deferral of tray and notification updates happens at once.
- Functions the code calls but does not define: `wait_for_microphone` and `list_audio_devices_with_retry` (devices are an input), `get_available_models` (models are an input), `tray.set_queue_size` (a no-op), and the `model_info` argument the tray constructor does not accept.
- The configuration switches `notifications_enabled`, `audio_feedback_enabled`, `show_model_info` and `show_recording_timer` are not fields of `Config`; they are boolean inputs.
- App.SuperWhisper.Run: the tray is built with the model name "tiny", because `run` passes no current model.
- App.SuperWhisper.Run: the notification manager's initialisation at start-up (main.py:292) is not modelled; notifications are an event log in this model and need no set-up.
- `get_default_input_device` is an input (`defaultDevice`).
- Strings: `lower` maps ASCII letters only; there is no Unicode case mapping. Whitespace follows Python's `isspace`.
- `print_missing`'s per-dependency text and headers, and the exact text of log messages.
- The durations in notifications arrive already formatted (`durationText`).
- `paste_text` and `type_text`, `refresh_model_menu`, `_on_refresh_devices`, `_on_quit` and quitting the tray, the recording timer, and the queue-size label.
- Failures when showing a notification or launching paplay are not modelled.
- Clipboard.ActiveWindowClass: a `class` field that is not a string counts as missing; when hyprctl cannot be launched at all the source raises (`FileNotFoundError` is not caught there), while the model returns None.
- Audio.AudioRecorder.Start: a stream that fails to open leaves the recorder marked as recording without a stream, as in the code; closing it later is not modelled.
- Not part of this model: install.py (service files and systemctl), hotkey.py (signals and the PID file), logging_config.py, and config.py's JSON load and save; `Config` is a record with its defaults.
