/**
 * Desktop notifications and feedback sounds
 * (src/superwhisper/notifications.py): the initialisation flag, the
 * enable switches, the urgency and sound tables, and the preview of a
 * transcription.
 *
 * libnotify and paplay are reduced to logs: `shown` holds the
 * notifications shown, `played` the sound files handed to paplay, in
 * order. The work the source defers to the GUI loop happens at once.
 */
module Notifications {
  import opened Strings

  /** libnotify's urgency levels. */
  datatype Urgency = Low | Normal | Critical

  /** The urgency table: an unknown name is normal. */
  function UrgencyOf(name: string): (u: Urgency)
    ensures u == Low <==> name == "low"
    ensures u == Critical <==> name == "critical"
    ensures u == Normal <==> name != "low" && name != "critical"
  {
    if name == "low" then Low
    else if name == "critical" then Critical
    else Normal
  }

  /** The freedesktop sound theme names of the feedback sounds. */
  const SoundTable: map<string, string> := map[
    "start" := "message-new-instant",
    "stop" := "message-sent-instant",
    "complete" := "complete",
    "error" := "dialog-error"
  ]

  /** `sound_map.get(name, name)`: a known sound maps through the table, any other name is used as it is. */
  function SoundId(name: string): (id: string)
    ensures name in SoundTable ==> id == SoundTable[name]
    ensures name !in SoundTable ==> id == name
  {
    if name in SoundTable then SoundTable[name] else name
  }

  /** The file paplay is given for a sound. */
  function SoundFile(name: string): string {
    "/usr/share/sounds/freedesktop/stereo/" + SoundId(name) + ".oga"
  }

  /** The error sound is the theme's dialog-error; an unknown sound name reaches the theme unchanged. */
  lemma SoundLookups(other: string)
    requires other !in {"start", "stop", "complete", "error"}
    ensures SoundId("error") == "dialog-error" && SoundId("start") == "message-new-instant"
    ensures SoundId(other) == other
  {
    assert SoundTable.Keys == {"start", "stop", "complete", "error"};
  }

  /** The length past which a preview is cut. */
  const PreviewLimit := 100

  /** The preview in the completion notification: texts over the limit are cut to it and marked with "...". */
  function Preview(text: string): (p: string)
    ensures |text| <= PreviewLimit ==> p == text
    ensures |text| > PreviewLimit ==> |p| == PreviewLimit + 3 && p == text[..PreviewLimit] + "..."
  {
    if |text| > PreviewLimit then text[..PreviewLimit] + "..." else text
  }

  /** A preview is never longer than the limit plus the marker, and always starts with the text's own first characters. */
  lemma PreviewBounds(text: string)
    ensures |Preview(text)| <= PreviewLimit + 3
    ensures StartsWith(Preview(text), text[..if |text| < PreviewLimit then |text| else PreviewLimit])
  {
    var p := Preview(text);
    var k := if |text| < PreviewLimit then |text| else PreviewLimit;
    assert p[..k] == text[..k];
  }

  /** A notification as shown. */
  datatype Notice = Notice(title: string, body: string, icon: string, urgency: Urgency)

  /** `NotificationManager` */
  class NotificationManager {
    /** The configuration switches, and what the backend probes find. */
    const notificationsEnabled: bool
    const audioFeedbackEnabled: bool
    const gstLoads: bool
    const paplayOnPath: bool

    var initialized: bool
    var gstAvailable: bool
    var paplayAvailable: bool
    /** How often libnotify was initialised and released. */
    var libraryInits: nat
    var libraryReleases: nat
    var shown: seq<Notice>
    var played: seq<string>

    /** libnotify is held exactly while the manager is initialised. */
    predicate Valid()
      reads this
    {
      libraryInits == libraryReleases + (if initialized then 1 else 0)
    }

    constructor (notificationsEnabled: bool, audioFeedbackEnabled: bool, gstLoads: bool, paplayOnPath: bool)
      ensures Valid()
      ensures this.notificationsEnabled == notificationsEnabled && this.audioFeedbackEnabled == audioFeedbackEnabled
      ensures this.gstLoads == gstLoads && this.paplayOnPath == paplayOnPath
      ensures !initialized && !gstAvailable && !paplayAvailable
      ensures libraryInits == 0 && libraryReleases == 0 && shown == [] && played == []
    {
      this.notificationsEnabled := notificationsEnabled;
      this.audioFeedbackEnabled := audioFeedbackEnabled;
      this.gstLoads := gstLoads;
      this.paplayOnPath := paplayOnPath;
      initialized := false;
      gstAvailable := false;
      paplayAvailable := false;
      libraryInits := 0;
      libraryReleases := 0;
      shown := [];
      played := [];
    }

    /** `initialize`: the first call initialises libnotify and probes the sound backends; later calls do nothing. */
    method Initialize()
      requires Valid()
      modifies this`initialized, this`libraryInits, this`gstAvailable, this`paplayAvailable
      ensures Valid() && initialized
      ensures old(initialized) ==> libraryInits == old(libraryInits) && gstAvailable == old(gstAvailable)
                                   && paplayAvailable == old(paplayAvailable)
      ensures !old(initialized) ==> libraryInits == old(libraryInits) + 1 && gstAvailable == gstLoads
                                    && paplayAvailable == paplayOnPath
    {
      if initialized {
        return;
      }
      libraryInits := libraryInits + 1;
      initialized := true;
      CheckAudioBackends();
    }

    /** `_check_audio_backends` */
    method CheckAudioBackends()
      modifies this`gstAvailable, this`paplayAvailable
      ensures gstAvailable == gstLoads && paplayAvailable == paplayOnPath
    {
      gstAvailable := gstLoads;
      paplayAvailable := paplayOnPath;
    }

    /** `shutdown`: releases libnotify only if it is held. */
    method Shutdown()
      requires Valid()
      modifies this`initialized, this`libraryReleases
      ensures Valid() && !initialized
      ensures libraryReleases == old(libraryReleases) + (if old(initialized) then 1 else 0)
    {
      if initialized {
        libraryReleases := libraryReleases + 1;
        initialized := false;
      }
    }

    /** `_notify`: nothing when notifications are off; otherwise initialises on demand and shows. */
    method Notify(title: string, body: string, icon: string, urgency: string)
      requires Valid()
      modifies this`initialized, this`libraryInits, this`gstAvailable, this`paplayAvailable, this`shown
      ensures Valid()
      ensures !notificationsEnabled ==> shown == old(shown) && initialized == old(initialized)
                                        && libraryInits == old(libraryInits)
                                        && gstAvailable == old(gstAvailable) && paplayAvailable == old(paplayAvailable)
      ensures notificationsEnabled ==> shown == old(shown) + [Notice(title, body, icon, UrgencyOf(urgency))] && initialized
      ensures notificationsEnabled && old(initialized) ==>
                (libraryInits == old(libraryInits) && gstAvailable == old(gstAvailable) && paplayAvailable == old(paplayAvailable))
      ensures notificationsEnabled && !old(initialized) ==>
                (libraryInits == old(libraryInits) + 1 && gstAvailable == gstLoads && paplayAvailable == paplayOnPath)
    {
      if !notificationsEnabled {
        return;
      }
      if !initialized {
        Initialize();
      }
      shown := shown + [Notice(title, body, icon, UrgencyOf(urgency))];
    }

    /** `_play_sound`: nothing when feedback is off or paplay was not found. */
    method PlaySound(name: string)
      modifies this`played
      ensures played == if audioFeedbackEnabled && paplayAvailable then old(played) + [SoundFile(name)] else old(played)
    {
      if !audioFeedbackEnabled {
        return;
      }
      if paplayAvailable {
        played := played + [SoundFile(name)];
      }
    }

    /** `notify_recording_started` */
    method NotifyRecordingStarted()
      requires Valid()
      modifies this`initialized, this`libraryInits, this`gstAvailable, this`paplayAvailable, this`shown, this`played
      ensures Valid() && initialized == (old(initialized) || notificationsEnabled)
      ensures shown == old(shown) + (if notificationsEnabled then [Notice("Recording", "Speak now...", "audio-input-microphone", Normal)] else [])
      ensures played == old(played) + (if audioFeedbackEnabled && paplayAvailable then [SoundFile("start")] else [])
    {
      Notify("Recording", "Speak now...", "audio-input-microphone", "normal");
      PlaySound("start");
    }

    /** `notify_recording_stopped` */
    method NotifyRecordingStopped()
      requires Valid()
      modifies this`initialized, this`libraryInits, this`gstAvailable, this`paplayAvailable, this`shown, this`played
      ensures Valid() && initialized == (old(initialized) || notificationsEnabled)
      ensures shown == old(shown) + (if notificationsEnabled then [Notice("Processing", "Transcribing audio...", "audio-x-generic", Normal)] else [])
      ensures played == old(played) + (if audioFeedbackEnabled && paplayAvailable then [SoundFile("stop")] else [])
    {
      Notify("Processing", "Transcribing audio...", "audio-x-generic", "normal");
      PlaySound("stop");
    }

    /** `notify_transcription_complete`; `durationText` is the duration already formatted to one decimal. */
    method NotifyTranscriptionComplete(text: string, durationText: string)
      requires Valid()
      modifies this`initialized, this`libraryInits, this`gstAvailable, this`paplayAvailable, this`shown, this`played
      ensures Valid() && initialized == (old(initialized) || notificationsEnabled)
      ensures shown == old(shown) + (if notificationsEnabled
                                     then [Notice("Done", "Copied (" + durationText + "s)\n" + Preview(text), "dialog-information", Normal)]
                                     else [])
      ensures played == old(played) + (if audioFeedbackEnabled && paplayAvailable then [SoundFile("complete")] else [])
    {
      var preview := Preview(text);
      Notify("Done", "Copied (" + durationText + "s)\n" + preview, "dialog-information", "normal");
      PlaySound("complete");
    }

    /** `notify_no_speech`: low urgency, and no sound at all. */
    method NotifyNoSpeech()
      requires Valid()
      modifies this`initialized, this`libraryInits, this`gstAvailable, this`paplayAvailable, this`shown, this`played
      ensures Valid() && initialized == (old(initialized) || notificationsEnabled)
      ensures shown == old(shown) + (if notificationsEnabled then [Notice("No Speech", "No speech detected in recording", "dialog-warning", Low)] else [])
      ensures played == old(played)
    {
      Notify("No Speech", "No speech detected in recording", "dialog-warning", "low");
    }

    /** `notify_error`: critical urgency and the error sound. */
    method NotifyError(error: string)
      requires Valid()
      modifies this`initialized, this`libraryInits, this`gstAvailable, this`paplayAvailable, this`shown, this`played
      ensures Valid() && initialized == (old(initialized) || notificationsEnabled)
      ensures shown == old(shown) + (if notificationsEnabled then [Notice("Error", error, "dialog-error", Critical)] else [])
      ensures played == old(played) + (if audioFeedbackEnabled && paplayAvailable then [SoundFile("error")] else [])
    {
      Notify("Error", error, "dialog-error", "critical");
      PlaySound("error");
    }
  }

  /**
   * Initialising twice, shutting down, and initialising again: libnotify is
   * initialised once per period and released in between, and notifications
   * shown on demand do not initialise it a second time.
   */
  method InitShutdownCycle(notificationsEnabled: bool) returns (inits: nat, releases: nat)
    ensures inits == 2 && releases == 1
  {
    var m := new NotificationManager(notificationsEnabled, false, true, true);
    m.Initialize();
    m.Initialize();
    m.NotifyError("x");
    m.Shutdown();
    m.Shutdown();
    m.NotifyNoSpeech();
    if !notificationsEnabled {
      m.Initialize();
    }
    inits, releases := m.libraryInits, m.libraryReleases;
  }
}
