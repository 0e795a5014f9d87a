/**
 * The application (src/superwhisper/main.py): the command line, the
 * keybind text, and the `SuperWhisper` object that ties the recorder, the
 * transcriber and the tray together — the hotkey toggle, the hand-off of
 * recordings to the worker through a queue, the worker's drain-to-latest
 * and stale-result rules, and the microphone choice.
 *
 * The worker thread is modelled one iteration at a time; recordings that
 * arrive while it transcribes are a parameter. Notifications and clipboard
 * copies are recorded as an event log in call order.
 */
module App {
  import opened Wrappers
  import opened Strings
  import Audio
  import Transcribe
  import Tray

  /** The modifier and key of a Hyprland bind line. */
  datatype Keybind = Keybind(modifier: string, key: string)

  /** `keybind`'s parse of the hotkey: the first `+`-part is the modifier when there are several, the last is the key. */
  function ParseHotkey(hotkey: string): (k: Keybind)
    ensures '+' !in k.modifier && '+' !in k.key
    ensures '+' !in hotkey ==> k == Keybind("", hotkey)
  {
    SplitPartsFree(hotkey, '+');
    var parts := Split(hotkey, '+');
    Keybind(if |parts| > 1 then parts[0] else "", parts[|parts| - 1])
  }

  /** The configuration line `keybind` prints. */
  function BindLine(k: Keybind): string {
    "  bind = " + k.modifier + ", " + k.key + ", exec, superwhisper toggle"
  }

  /** A hotkey of `+`-free parts binds its first part (when there are several) with its last. */
  lemma HotkeyOfParts(parts: seq<string>)
    requires |parts| >= 1
    requires forall k :: 0 <= k < |parts| ==> '+' !in parts[k]
    ensures ParseHotkey(Join(parts, "+")) == Keybind(if |parts| > 1 then parts[0] else "", parts[|parts| - 1])
  {
    SplitJoin(parts, '+');
  }

  /** The bind line for a `MOD+KEY` hotkey names that modifier and key. */
  lemma BindLineOfHotkey(modifier: string, key: string)
    requires '+' !in modifier && '+' !in key
    ensures BindLine(ParseHotkey(modifier + "+" + key)) == "  bind = " + modifier + ", " + key + ", exec, superwhisper toggle"
  {
    HotkeyRoundTrip(modifier, key);
  }

  /** A hotkey without `+` binds with an empty modifier. */
  lemma BindLineOfKey(key: string)
    requires '+' !in key
    ensures BindLine(ParseHotkey(key)) == "  bind = , " + key + ", exec, superwhisper toggle"
  {
  }

  /** A `MOD+KEY` hotkey parses back into its modifier and key. */
  lemma HotkeyRoundTrip(modifier: string, key: string)
    requires '+' !in modifier && '+' !in key
    ensures ParseHotkey(modifier + "+" + key) == Keybind(modifier, key)
  {
    var parts := [modifier, key];
    assert Join(parts, "+") == modifier + "+" + key by {
      assert parts[1..] == [key];
    }
    HotkeyOfParts(parts);
  }

  /** With more than one modifier only the first is kept: `A+B+K` binds `A, K`. */
  lemma MiddleModifiersDropped(a: string, b: string, key: string)
    requires '+' !in a && '+' !in b && '+' !in key
    ensures ParseHotkey(a + "+" + b + "+" + key) == Keybind(a, key)
  {
    var parts := [a, b, key];
    assert Join(parts, "+") == a + "+" + b + "+" + key by {
      assert parts[1..] == [b, key];
      assert parts[1..][1..] == [key];
      assert Join(parts[1..], "+") == b + "+" + key;
    }
    HotkeyOfParts(parts);
  }

  /** What `main` does for a command line (`argv[0]` is the program). */
  datatype Command =
    | Toggle
    | PrintKeybind
    | Install(useSystemd: bool)
    | Uninstall
    | Status
    | Help
    | ExitMissingDependencies
    | StartApp

  /**
   * `main`'s dispatch on `argv[1]`; `--systemd` counts anywhere on the line.
   * With no or an unknown command the dependencies are checked
   * (`depsMissing`), and the application starts only when none is missing.
   */
  function Dispatch(argv: seq<string>, depsMissing: bool): (c: Command)
    ensures c == Toggle <==> |argv| > 1 && argv[1] == "toggle"
    ensures c == PrintKeybind <==> |argv| > 1 && argv[1] == "keybind"
    ensures c.Install? <==> |argv| > 1 && argv[1] == "install"
    ensures c == Uninstall <==> |argv| > 1 && argv[1] == "uninstall"
    ensures c == Status <==> |argv| > 1 && argv[1] == "status"
    ensures c.Install? ==> (c.useSystemd <==> "--systemd" in argv)
    ensures c == Help <==> |argv| > 1 && argv[1] in {"-h", "--help"}
    ensures c == StartApp <==> !depsMissing && !(|argv| > 1 && argv[1] in Subcommands)
    ensures c == ExitMissingDependencies <==> depsMissing && !(|argv| > 1 && argv[1] in Subcommands)
  {
    var cmd := if |argv| > 1 then argv[1] else "";
    if |argv| > 1 && cmd == "toggle" then Toggle
    else if |argv| > 1 && cmd == "keybind" then PrintKeybind
    else if |argv| > 1 && cmd == "install" then Install("--systemd" in argv)
    else if |argv| > 1 && cmd == "uninstall" then Uninstall
    else if |argv| > 1 && cmd == "status" then Status
    else if |argv| > 1 && (cmd == "-h" || cmd == "--help") then Help
    else if depsMissing then ExitMissingDependencies
    else StartApp
  }

  const Subcommands: set<string> := {"toggle", "keybind", "install", "uninstall", "status", "-h", "--help"}

  /** The exit status of a run that ends before the application starts; `None` for the commands that return normally. */
  function ExitCode(c: Command, toggleSent: bool): (code: Option<int>)
    ensures c == ExitMissingDependencies ==> code == Some(1)
    ensures c == Toggle ==> code == Some(if toggleSent then 0 else 1)
    ensures c != Toggle && c != ExitMissingDependencies ==> code == None
  {
    match c
    case Toggle => Some(if toggleSent then 0 else 1)
    case ExitMissingDependencies => Some(1)
    case _ => None
  }

  /** A subcommand is never held up by a missing dependency. */
  lemma SubcommandsSkipDependencyCheck(argv: seq<string>)
    requires |argv| > 1 && argv[1] in Subcommands
    ensures Dispatch(argv, true) == Dispatch(argv, false)
    ensures Dispatch(argv, true) != StartApp && Dispatch(argv, true) != ExitMissingDependencies
  {
  }

  /** The configuration fields the application reads. */
  datatype Config = Config(
    hotkey: string,
    model: string,
    language: string,
    device: string,
    computeType: string,
    microphone: Option<string>)

  /** The defaults of `Config`. */
  const DefaultConfig := Config("CTRL+TAB", "tiny", "en", "auto", "auto", None)

  /** A notification request, or a text handed to the clipboard. */
  datatype Event =
    | NotifyRecordingStarted
    | NotifyRecordingStopped
    | NotifyComplete(text: string)
    | NotifyNoSpeech
    | NotifyError(message: string)
    | Copied(text: string)

  /** The enumeration index of the first device with the saved name. */
  function FirstNamed(devices: seq<Audio.InputDevice>, name: Option<string>): (r: Option<int>)
    ensures r.None? <==> forall i :: 0 <= i < |devices| ==> Some(devices[i].name) != name
    ensures r.Some? ==> exists i :: 0 <= i < |devices| && Some(devices[i].name) == name && devices[i].index == r.value
                                    && forall j :: 0 <= j < i ==> Some(devices[j].name) != name
    decreases |devices|
  {
    if |devices| == 0 then None
    else if Some(devices[0].name) == name then Some(devices[0].index)
    else
      var r := FirstNamed(devices[1..], name);
      assert forall i :: 0 < i < |devices| ==> devices[1..][i - 1] == devices[i];
      r
  }

  /** What the worker reports for one transcription of the latest recording. */
  function WorkerEvents(r: Result<string>, newerArrived: bool, copyError: Option<string>): (e: seq<Event>)
    ensures r.Err? ==> e == [NotifyError(r.message)]
    ensures r.Ok? && newerArrived ==> e == []
    ensures r.Ok? && !newerArrived && r.value == "" ==> e == [NotifyNoSpeech]
    ensures r.Ok? && !newerArrived && r.value != "" ==>
              e == if copyError.Some? then [NotifyError(copyError.value)] else [Copied(r.value), NotifyComplete(r.value)]
  {
    match r
    case Err(m) => [NotifyError(m)]
    case Ok(text) =>
      if newerArrived then []
      else if text == "" then [NotifyNoSpeech]
      else if copyError.Some? then [NotifyError(copyError.value)]
      else [Copied(text), NotifyComplete(text)]
  }

  /** A text reaches the clipboard only when it is non-empty and nothing newer is waiting. */
  lemma CopiedOnlyWhenLatest(r: Result<string>, newerArrived: bool, copyError: Option<string>, t: string)
    requires Copied(t) in WorkerEvents(r, newerArrived, copyError)
    ensures r == Ok(t) && t != "" && !newerArrived && copyError.None?
  {
  }

  /** `SuperWhisper` */
  class SuperWhisper<S> {
    var config: Config
    var savedConfig: Option<Config>
    const recorder: Audio.AudioRecorder<S>
    const transcriber: Transcribe.Transcriber
    var tray: Tray.TrayIcon?
    var queue: seq<seq<S>>
    var events: seq<Event>

    /**
     * The transcriber's model matches its settings, the tray shows the icon
     * for its state, and no empty recording is ever waiting.
     */
    predicate Valid()
      reads this, transcriber, tray
    {
      && transcriber.Valid()
      && (tray != null ==> tray.Synced())
      && (forall i :: 0 <= i < |queue| ==> |queue[i]| > 0)
    }

    /**
     * `__init__` with the devices found at startup and the rate queried for
     * the restored one: the saved microphone, when set, is looked up by name.
     */
    constructor (config: Config, devices: seq<Audio.InputDevice>, queried: Option<int>)
      ensures Valid()
      ensures this.config == config && savedConfig == None
      ensures tray == null && queue == [] && events == []
      ensures transcriber.modelSize == config.model && transcriber.requestedDevice == config.device
      ensures transcriber.requestedComputeType == config.computeType && transcriber.model == None
      ensures !recorder.recording && recorder.audioData == []
      ensures recorder.device ==
        if config.microphone.Some? && config.microphone.value != "" && FirstNamed(devices, config.microphone).Some?
        then Some(Audio.Index(FirstNamed(devices, config.microphone).value)) else None
    {
      this.config := config;
      savedConfig := None;
      recorder := new Audio.AudioRecorder(None);
      transcriber := new Transcribe.Transcriber(config.model, config.device, config.computeType);
      tray := null;
      queue := [];
      events := [];
      new;
      if config.microphone.Some? && config.microphone.value != "" {
        RestoreMicrophone(devices, queried);
      }
    }

    /** `_restore_microphone`: the first device with the saved name becomes the recorder's device; otherwise nothing changes. */
    method RestoreMicrophone(devices: seq<Audio.InputDevice>, queried: Option<int>)
      modifies recorder
      ensures var found := FirstNamed(devices, config.microphone);
              if found.Some? then recorder.device == Some(Audio.Index(found.value))
                                  && recorder.deviceSampleRate == queried.GetOr(Audio.TargetSampleRate)
              else recorder.device == old(recorder.device) && recorder.deviceSampleRate == old(recorder.deviceSampleRate)
      ensures recorder.recording == old(recorder.recording) && recorder.audioData == old(recorder.audioData)
      ensures recorder.streamOpen == old(recorder.streamOpen)
    {
      var i := 0;
      while i < |devices|
        invariant 0 <= i <= |devices|
        invariant forall j :: 0 <= j < i ==> Some(devices[j].name) != config.microphone
      {
        if Some(devices[i].name) == config.microphone {
          assert FirstNamed(devices, config.microphone) == Some(devices[i].index) by {
            FirstNamedAt(devices, config.microphone, i);
          }
          recorder.SetDevice(Some(Audio.Index(devices[i].index)), queried);
          return;
        }
        i := i + 1;
      }
    }

    /** `_start_recording`; when opening the stream raises, the tray and notifications are not reached. */
    method StartRecording(queried: Option<int>, streamError: Option<string>) returns (r: Outcome)
      requires Valid()
      modifies recorder, tray, this`events
      ensures Valid()
      ensures recorder.recording && recorder.audioData == [] && recorder.device == old(recorder.device)
      ensures r == if streamError.Some? then Fail(streamError.value) else Pass
      ensures events == (if r.Pass? then old(events) + [NotifyRecordingStarted] else old(events))
      ensures tray != null ==> tray.recording == (r.Pass? || old(tray.recording))
                               && tray.transcribing == old(tray.transcribing)
      ensures queue == old(queue)
    {
      r := recorder.Start(queried, streamError);
      if r.Fail? {
        return;
      }
      if tray != null {
        tray.SetRecording(true);
      }
      events := events + [NotifyRecordingStarted];
    }

    /**
     * `_stop_recording`: the tray switches to transcribing; an empty
     * recording is reported as an error and never queued, any other is
     * queued once for the worker.
     */
    method StopRecording(interpolate: (seq<S>, int, int) -> seq<S>)
      requires Valid()
      modifies recorder, tray, this`events, this`queue
      ensures Valid()
      ensures !recorder.recording && recorder.audioData == []
      ensures var audio := Audio.Recorded(old(recorder.audioData), old(recorder.deviceSampleRate), interpolate);
              if |audio| == 0 then
                && queue == old(queue)
                && events == old(events) + [NotifyError("No audio recorded")]
                && (tray != null ==> !tray.transcribing)
              else
                && queue == old(queue) + [audio]
                && events == old(events) + [NotifyRecordingStopped]
                && (tray != null ==> tray.transcribing)
      ensures tray != null ==> !tray.recording
    {
      if tray != null {
        tray.SetRecording(false);
        tray.SetTranscribing(true);
      }
      var audio := recorder.Stop(interpolate);
      if |audio| == 0 {
        events := events + [NotifyError("No audio recorded")];
        if tray != null {
          tray.SetTranscribing(false);
        }
        return;
      }
      events := events + [NotifyRecordingStopped];
      queue := queue + [audio];
    }

    /** `_on_hotkey`: the hotkey stops a recording in progress and starts one otherwise. */
    method OnHotkey(queried: Option<int>, streamError: Option<string>, interpolate: (seq<S>, int, int) -> seq<S>)
      requires Valid()
      modifies recorder, tray, this`events, this`queue
      ensures Valid()
      ensures recorder.recording <==> !old(recorder.recording)
      ensures old(recorder.recording) ==>
                var audio := Audio.Recorded(old(recorder.audioData), old(recorder.deviceSampleRate), interpolate);
                queue == (if |audio| == 0 then old(queue) else old(queue) + [audio])
      ensures !old(recorder.recording) ==> queue == old(queue) && recorder.audioData == []
    {
      if recorder.recording {
        StopRecording(interpolate);
      } else {
        var _ := StartRecording(queried, streamError);
      }
    }

    /**
     * The drain of `_worker_loop`: every waiting buffer is taken off the
     * queue and only the last one is kept.
     */
    method Drain() returns (latest: seq<S>)
      requires |queue| > 0
      modifies this`queue
      ensures latest == old(queue)[|old(queue)| - 1]
      ensures queue == []
    {
      latest := queue[0];
      queue := queue[1..];
      while queue != []
        invariant |queue| < |old(queue)|
        invariant queue == old(queue)[|old(queue)| - |queue|..]
        invariant latest == old(queue)[|old(queue)| - |queue| - 1]
        decreases |queue|
      {
        latest := queue[0];
        queue := queue[1..];
      }
    }

    /**
     * What `_worker_loop` does with the outcome `r` of a transcription: an
     * error is reported and clears the transcribing state; a result is
     * dropped while newer audio waits; otherwise the tray is cleared and the
     * text is copied and announced (a failing copy is reported instead).
     */
    method Report(r: Result<string>, copyError: Option<string>)
      requires Valid()
      modifies this`events, tray
      ensures Valid()
      ensures events == old(events) + WorkerEvents(r, |queue| > 0, copyError)
      ensures tray != null ==> tray.recording == old(tray.recording)
      ensures tray != null ==> tray.transcribing == (if r.Ok? && |queue| > 0 then old(tray.transcribing) else false)
    {
      if r.Err? {
        events := events + [NotifyError(r.message)];
        if tray != null {
          tray.SetTranscribing(false);
        }
        return;
      }
      if queue != [] {
        return;
      }
      if tray != null {
        tray.SetTranscribing(false);
      }
      var text := r.value;
      if text != "" {
        if copyError.Some? {
          events := events + [NotifyError(copyError.value)];
          if tray != null {
            tray.SetTranscribing(false);
          }
          return;
        }
        events := events + [Copied(text), NotifyComplete(text)];
      } else {
        events := events + [NotifyNoSpeech];
      }
    }

    /**
     * One iteration of `_worker_loop`. The queue holds at least the
     * recording the blocking `get` waits for; `arrivals` are the recordings
     * queued while the engine runs, and `copyError` is what launching
     * wl-copy raises, if anything.
     */
    method WorkerStep(arrivals: seq<seq<S>>, backend: Transcribe.Backend<S>,
                      copyError: Option<string>) returns (transcribed: seq<S>)
      requires Valid() && |queue| > 0
      requires forall i :: 0 <= i < |arrivals| ==> |arrivals[i]| > 0
      modifies this`queue, this`events, transcriber, tray
      ensures Valid()
      ensures transcribed == old(queue)[|old(queue)| - 1]
      ensures queue == arrivals
      ensures var r := Transcribe.TranscribeResult(old(transcriber.model), transcriber.modelSize,
                         transcriber.requestedDevice, transcriber.requestedComputeType, transcribed, config.language, backend);
              && events == old(events) + WorkerEvents(r, |arrivals| > 0, copyError)
              && (tray != null ==> tray.recording == old(tray.recording))
              && (tray != null ==> tray.transcribing == (if r.Ok? && |arrivals| > 0 then old(tray.transcribing) else false))
    {
      transcribed := Drain();
      var r := transcriber.Transcribe(transcribed, config.language, backend);
      queue := queue + arrivals;
      Report(r, copyError);
    }

    /** `_on_device_change`: the recorder switches device, and the name is saved with the rest of the configuration. */
    method OnDeviceChange(index: Option<int>, name: Option<string>, queried: Option<int>)
      modifies recorder, this`config, this`savedConfig
      ensures recorder.device == if index.Some? then Some(Audio.Index(index.value)) else None
      ensures recorder.deviceSampleRate == if index.None? then Audio.TargetSampleRate else queried.GetOr(Audio.TargetSampleRate)
      ensures config == old(config).(microphone := name) && savedConfig == Some(config)
      ensures recorder.recording == old(recorder.recording) && recorder.audioData == old(recorder.audioData)
    {
      var device: Option<Audio.DeviceRef> := if index.Some? then Some(Audio.Index(index.value)) else None;
      recorder.SetDevice(device, queried);
      config := config.(microphone := name);
      savedConfig := Some(config);
    }

    /**
     * `run` up to the GUI loop: the model is loaded first (a failure ends
     * the run), then the tray is created for the saved microphone and shown.
     */
    method Run(backend: Transcribe.Backend<S>, models: seq<Tray.ModelEntry>,
               devices: seq<Audio.InputDevice>, defaultDevice: Option<int>) returns (r: Outcome)
      requires Valid()
      modifies transcriber, this`tray
      ensures Valid()
      ensures var l := Transcribe.LoadResult(old(transcriber.model), transcriber.modelSize,
                         transcriber.requestedDevice, transcriber.requestedComputeType, backend);
              && (r.Pass? <==> l.Ok?)
              && (l.Ok? ==> transcriber.model == Some(l.value))
      ensures r.Fail? ==> tray == old(tray)
      ensures r.Pass? ==> tray != null && fresh(tray) && tray.hasIndicator && tray.icon == Tray.Idle
                          && tray.savedDeviceName == config.microphone && tray.hasDeviceCallback
    {
      r := transcriber.LoadModel(backend);
      if r.Fail? {
        return;
      }
      var t := new Tray.TrayIcon(config.microphone, "tiny", true, false);
      t.Run(models, devices, defaultDevice);
      tray := t;
    }
  }

  /** The loop in `_restore_microphone` stops at the position `FirstNamed` names. */
  lemma FirstNamedAt(devices: seq<Audio.InputDevice>, name: Option<string>, i: nat)
    requires i < |devices| && Some(devices[i].name) == name
    requires forall j :: 0 <= j < i ==> Some(devices[j].name) != name
    ensures FirstNamed(devices, name) == Some(devices[i].index)
    decreases i
  {
    if i > 0 {
      assert Some(devices[0].name) != name;
      FirstNamedAt(devices[1..], name, i - 1);
    }
  }
}
