/**
 * The capture side of the pipeline (src/superwhisper/audio.py): the
 * recorder's session buffer, the equal-rate case of resampling and the
 * microphone filter over the host's device list.
 *
 * Samples are an abstract element type `S`. What the audio host reports
 * (a device's native rate, the device list) and the interpolation that
 * resampling performs between two different rates are parameters.
 */
module Audio {
  import opened Wrappers
  import opened Strings

  /** The rate the transcription engine expects. */
  const TargetSampleRate: int := 16000

  /** Virtual aggregators report more input channels than this. */
  const MaxInputChannels: int := 8

  /**
   * `resample`. Between two different rates the result is whatever the
   * linear interpolation `interpolate` produces; between equal rates the
   * input comes back unchanged.
   */
  function Resample<S>(audio: seq<S>, origRate: int, targetRate: int,
                       interpolate: (seq<S>, int, int) -> seq<S>): (r: seq<S>)
    ensures origRate == targetRate ==> r == audio
  {
    if origRate == targetRate then audio else interpolate(audio, origRate, targetRate)
  }

  /** `np.concatenate(chunks).flatten()` for mono chunks: the chunks end to end, in order. */
  function Concat<S>(chunks: seq<seq<S>>): seq<S>
    decreases |chunks|
  {
    if |chunks| == 0 then [] else Concat(chunks[..|chunks| - 1]) + chunks[|chunks| - 1]
  }

  function SampleCount<S>(chunks: seq<seq<S>>): nat
    decreases |chunks|
  {
    if |chunks| == 0 then 0 else SampleCount(chunks[..|chunks| - 1]) + |chunks[|chunks| - 1]|
  }

  /** Concatenating two runs of chunks is concatenating their concatenations. */
  lemma {:induction false} ConcatAppend<S>(a: seq<seq<S>>, b: seq<seq<S>>)
    ensures Concat(a + b) == Concat(a) + Concat(b)
    decreases |b|
  {
    if b == [] {
      assert a + b == a;
    } else {
      var b' := b[..|b| - 1];
      assert (a + b)[..|a + b| - 1] == a + b';
      ConcatAppend(a, b');
    }
  }

  /** The flattened buffer holds every sample of every chunk. */
  lemma {:induction false} ConcatLength<S>(chunks: seq<seq<S>>)
    ensures |Concat(chunks)| == SampleCount(chunks)
    decreases |chunks|
  {
    if chunks != [] {
      ConcatLength(chunks[..|chunks| - 1]);
    }
  }

  /** A device as the recorder is told about it: an index into the host's list, or a name. */
  datatype DeviceRef = Index(index: int) | Named(name: string)

  /**
   * `AudioRecorder`: Idle (`!recording`) or Recording. `audioData` is the
   * session's chunk list, `streamOpen` whether an input stream is held.
   */
  /**
   * What `stop` returns for the chunks of a session captured at `rate`:
   * nothing without chunks, otherwise the chunks end to end at the target rate.
   */
  function Recorded<S>(chunks: seq<seq<S>>, rate: int, interpolate: (seq<S>, int, int) -> seq<S>): (audio: seq<S>)
    ensures chunks == [] ==> audio == []
    ensures chunks != [] && rate == TargetSampleRate ==> audio == Concat(chunks)
  {
    if chunks == [] then [] else Resample(Concat(chunks), rate, TargetSampleRate, interpolate)
  }

  class AudioRecorder<S> {
    var device: Option<DeviceRef>
    var recording: bool
    var audioData: seq<seq<S>>
    var deviceSampleRate: int
    var streamOpen: bool

    constructor (device: Option<DeviceRef>)
      ensures this.device == device
      ensures !recording && audioData == [] && !streamOpen
      ensures deviceSampleRate == TargetSampleRate
    {
      this.device := device;
      recording := false;
      audioData := [];
      streamOpen := false;
      deviceSampleRate := TargetSampleRate;
    }

    /**
     * `set_device`. `queried` is the native rate the host reports for the
     * device, `None` when the query raises; without a device, or when the
     * query fails, the rate falls back to the target rate.
     */
    method SetDevice(device: Option<DeviceRef>, queried: Option<int>)
      modifies this
      ensures this.device == device
      ensures deviceSampleRate == if device.None? then TargetSampleRate else queried.GetOr(TargetSampleRate)
      ensures recording == old(recording) && audioData == old(audioData) && streamOpen == old(streamOpen)
    {
      this.device := device;
      if device.Some? {
        match queried
        case Some(rate) => deviceSampleRate := rate;
        case None => deviceSampleRate := TargetSampleRate;
      } else {
        deviceSampleRate := TargetSampleRate;
      }
    }

    /** `_audio_callback`: a chunk is kept, after the earlier ones, only while recording. */
    method AudioCallback(indata: seq<S>)
      modifies this
      ensures audioData == if old(recording) then old(audioData) + [indata] else old(audioData)
      ensures recording == old(recording) && device == old(device)
      ensures deviceSampleRate == old(deviceSampleRate) && streamOpen == old(streamOpen)
    {
      if recording {
        audioData := audioData + [indata];
      }
    }

    /**
     * `start`. A selected device whose rate still reads as the target rate
     * is queried again (`queried`, `None` when that raises). The session
     * buffer is emptied and recording is on before the stream is opened;
     * `streamError` is what opening the stream raises, if anything, and
     * then the recorder stays in Recording with no stream.
     */
    method Start(queried: Option<int>, streamError: Option<string>) returns (r: Outcome)
      modifies this
      ensures recording && audioData == []
      ensures device == old(device)
      ensures deviceSampleRate ==
        if old(device).Some? && old(deviceSampleRate) == TargetSampleRate && queried.Some?
        then queried.value else old(deviceSampleRate)
      ensures r == if streamError.Some? then Fail(streamError.value) else Pass
      ensures streamOpen == (streamError.None? || old(streamOpen))
    {
      if device.Some? && deviceSampleRate == TargetSampleRate {
        if queried.Some? {
          deviceSampleRate := queried.value;
        }
      }
      audioData := [];
      recording := true;
      if streamError.Some? {
        r := Fail(streamError.value);
      } else {
        streamOpen := true;
        r := Pass;
      }
    }

    /**
     * `stop`. Recording is off and the stream released. With no chunks the
     * result is the empty buffer (also when `start` never ran); otherwise it
     * is the chunks concatenated in order, resampled to the target rate only
     * when the device's rate differs.
     */
    method Stop(interpolate: (seq<S>, int, int) -> seq<S>) returns (audio: seq<S>)
      modifies this
      ensures !recording && !streamOpen && audioData == []
      ensures audio == Recorded(old(audioData), old(deviceSampleRate), interpolate)
      ensures device == old(device) && deviceSampleRate == old(deviceSampleRate)
    {
      recording := false;
      streamOpen := false;
      if audioData == [] {
        audio := [];
        return;
      }
      audio := Concat(audioData);
      audioData := [];
      if deviceSampleRate != TargetSampleRate {
        audio := Resample(audio, deviceSampleRate, TargetSampleRate, interpolate);
      }
    }

    /** `is_recording` */
    method IsRecording() returns (r: bool)
      ensures r == recording
    {
      r := recording;
    }
  }

  /**
   * A whole session on the system default device: `start`, the given chunks
   * arriving at the callback, `stop`. At the target rate the result is
   * exactly the chunks end to end, and the recorder is idle again.
   */
  method CaptureSession<S>(chunks: seq<seq<S>>, interpolate: (seq<S>, int, int) -> seq<S>)
    returns (audio: seq<S>, idle: bool)
    ensures audio == Concat(chunks)
    ensures |audio| == SampleCount(chunks)
    ensures idle
  {
    var recorder := new AudioRecorder<S>(None);
    var _ := recorder.Start(None, None);
    for i := 0 to |chunks|
      invariant recorder.recording
      invariant recorder.audioData == chunks[..i]
      invariant recorder.deviceSampleRate == TargetSampleRate
    {
      recorder.AudioCallback(chunks[i]);
      assert chunks[..i + 1] == chunks[..i] + [chunks[i]];
    }
    assert chunks[..|chunks|] == chunks;
    audio := recorder.Stop(interpolate);
    var rec := recorder.IsRecording();
    idle := !rec;
    ConcatLength(chunks);
  }

  // ---------------------------------------------------------------------
  // Microphone filter (`list_audio_devices`)
  // ---------------------------------------------------------------------

  /** One entry of the host's device enumeration. */
  datatype HostDevice = HostDevice(name: string, maxInputChannels: int, defaultSampleRate: int)

  /** One listed microphone; `index` is its position in the host's enumeration. */
  datatype InputDevice = InputDevice(index: int, name: string, channels: int, sampleRate: int)

  /** Words that suggest a real microphone. */
  const MicPositive: seq<string> := [
    "mic", "input", "line", "scarlett", "focusrite", "rode", "blue",
    "shure", "at2020", "yeti", "snowball", "usb audio", "headset"
  ]

  /** Words that mark something that is not a microphone. */
  const MicNegative: seq<string> := [
    "monitor", "output", "hdmi", "displayport", "speaker", "headphone",
    "spdif", "front", "surround", "iec958", "dmix", "split", "rear"
  ]

  /** Names of virtual devices, excluded by exact (lower-cased) match. */
  const VirtualDevices: seq<string> := ["sysdefault", "pipewire", "default", "pulse", "null"]

  /** The substring by which the host marks a direct hardware binding. */
  const HardwareTag: string := "(hw:"

  /** `any(kw in text for kw in keywords)` */
  predicate AnyKeyword(text: string, keywords: seq<string>)
    decreases |keywords|
  {
    |keywords| > 0 && (Contains(text, keywords[0]) || AnyKeyword(text, keywords[1..]))
  }

  predicate IsHardware(name: string) {
    Contains(name, HardwareTag)
  }

  /** Whether the filter keeps a device: the rules of the enumeration loop, all at once. */
  predicate Listed(dev: HostDevice) {
    var lower := Lower(dev.name);
    && 1 <= dev.maxInputChannels <= MaxInputChannels
    && lower !in VirtualDevices
    && !AnyKeyword(lower, MicNegative)
    && (IsHardware(dev.name) || AnyKeyword(lower, MicPositive))
  }

  function Describe(index: int, dev: HostDevice): InputDevice {
    InputDevice(index, dev.name, dev.maxInputChannels, dev.defaultSampleRate)
  }

  /** The devices `keep` accepts, in enumeration order, each under its enumeration index. */
  function Select(devices: seq<HostDevice>, keep: HostDevice -> bool): seq<InputDevice>
    decreases |devices|
  {
    if |devices| == 0 then []
    else
      var n := |devices| - 1;
      Select(devices[..n], keep) + (if keep(devices[n]) then [Describe(n, devices[n])] else [])
  }

  /** The listed devices in enumeration order, before sorting. */
  function Filtered(devices: seq<HostDevice>): seq<InputDevice> {
    Select(devices, Listed)
  }

  lemma {:induction false} SelectMembership(devices: seq<HostDevice>, keep: HostDevice -> bool, d: InputDevice)
    ensures d in Select(devices, keep) <==>
            (0 <= d.index < |devices| && keep(devices[d.index]) && d == Describe(d.index, devices[d.index]))
    decreases |devices|
  {
    if |devices| > 0 {
      var n := |devices| - 1;
      SelectMembership(devices[..n], keep, d);
      assert forall i :: 0 <= i < n ==> devices[..n][i] == devices[i];
    }
  }

  lemma {:induction false} SelectIndicesIncrease(devices: seq<HostDevice>, keep: HostDevice -> bool)
    ensures forall i, j :: 0 <= i < j < |Select(devices, keep)| ==> Select(devices, keep)[i].index < Select(devices, keep)[j].index
    ensures forall i :: 0 <= i < |Select(devices, keep)| ==> 0 <= Select(devices, keep)[i].index < |devices|
    decreases |devices|
  {
    if |devices| > 0 {
      var n := |devices| - 1;
      SelectIndicesIncrease(devices[..n], keep);
    }
  }

  /** A device appears in the filtered list exactly when the filter keeps it, under its enumeration index. */
  lemma FilteredMembership(devices: seq<HostDevice>, d: InputDevice)
    ensures d in Filtered(devices) <==>
            (0 <= d.index < |devices| && Listed(devices[d.index]) && d == Describe(d.index, devices[d.index]))
  {
    SelectMembership(devices, Listed, d);
  }

  /** The filtered list carries strictly increasing enumeration indices. */
  lemma FilteredIndicesIncrease(devices: seq<HostDevice>)
    ensures forall i, j :: 0 <= i < j < |Filtered(devices)| ==> Filtered(devices)[i].index < Filtered(devices)[j].index
    ensures forall i :: 0 <= i < |Filtered(devices)| ==> 0 <= Filtered(devices)[i].index < |devices|
  {
    SelectIndicesIncrease(devices, Listed);
  }

  /** The sort key `(0 if "(hw:" in name else 1, name)`. */
  function HardwareRank(d: InputDevice): int {
    if IsHardware(d.name) then 0 else 1
  }

  predicate KeyLe(a: InputDevice, b: InputDevice) {
    HardwareRank(a) < HardwareRank(b) || (HardwareRank(a) == HardwareRank(b) && LexLe(a.name, b.name))
  }

  predicate SortedByKey(s: seq<InputDevice>) {
    forall i, j :: 0 <= i < j < |s| ==> KeyLe(s[i], s[j])
  }

  lemma KeyLeTotal(a: InputDevice, b: InputDevice)
    ensures KeyLe(a, b) || KeyLe(b, a)
  {
    LexLeTotal(a.name, b.name);
  }

  lemma KeyLeTrans(a: InputDevice, b: InputDevice, c: InputDevice)
    requires KeyLe(a, b) && KeyLe(b, c)
    ensures KeyLe(a, c)
  {
    if HardwareRank(a) == HardwareRank(b) == HardwareRank(c) {
      LexLeTrans(a.name, b.name, c.name);
    }
  }

  /** Stable insertion: `x` goes after every element whose key is not greater. */
  function Insert(sorted: seq<InputDevice>, x: InputDevice): seq<InputDevice>
    decreases |sorted|
  {
    if |sorted| == 0 then [x]
    else if KeyLe(sorted[|sorted| - 1], x) then sorted + [x]
    else Insert(sorted[..|sorted| - 1], x) + [sorted[|sorted| - 1]]
  }

  /** `list.sort(key=...)`, a stable sort, as insertion of each element in turn. */
  function SortDevices(s: seq<InputDevice>): seq<InputDevice>
    decreases |s|
  {
    if |s| == 0 then [] else Insert(SortDevices(s[..|s| - 1]), s[|s| - 1])
  }

  lemma {:induction false} InsertPermutes(sorted: seq<InputDevice>, x: InputDevice)
    ensures multiset(Insert(sorted, x)) == multiset(sorted) + multiset{x}
    decreases |sorted|
  {
    if |sorted| > 0 && !KeyLe(sorted[|sorted| - 1], x) {
      var init := sorted[..|sorted| - 1];
      InsertPermutes(init, x);
      assert sorted == init + [sorted[|sorted| - 1]];
    }
  }

  lemma {:induction false} InsertSorted(sorted: seq<InputDevice>, x: InputDevice)
    requires SortedByKey(sorted)
    ensures SortedByKey(Insert(sorted, x))
    decreases |sorted|
  {
    if |sorted| > 0 {
      var last := sorted[|sorted| - 1];
      var init := sorted[..|sorted| - 1];
      if KeyLe(last, x) {
        forall i | 0 <= i < |sorted| ensures KeyLe(sorted[i], x) {
          if i < |sorted| - 1 { KeyLeTrans(sorted[i], last, x); }
        }
      } else {
        KeyLeTotal(last, x);
        InsertSorted(init, x);
        InsertPermutes(init, x);
        var r := Insert(init, x);
        forall i | 0 <= i < |r| ensures KeyLe(r[i], last) {
          assert r[i] in multiset(r);
          assert r[i] in multiset(init) || r[i] == x;
          if r[i] != x {
            var k :| 0 <= k < |init| && init[k] == r[i];
            assert sorted[k] == init[k];
          }
        }
      }
    }
  }

  /** The sort orders by the key and only rearranges its input. */
  lemma {:induction false} SortDevicesCorrect(s: seq<InputDevice>)
    ensures SortedByKey(SortDevices(s))
    ensures multiset(SortDevices(s)) == multiset(s)
    decreases |s|
  {
    if |s| > 0 {
      var init := s[..|s| - 1];
      SortDevicesCorrect(init);
      InsertSorted(SortDevices(init), s[|s| - 1]);
      InsertPermutes(SortDevices(init), s[|s| - 1]);
      assert s == init + [s[|s| - 1]];
    }
  }

  /**
   * `list_audio_devices` over the host's enumeration `devices`: the devices
   * the filter keeps, under their enumeration indices, hardware-tagged ones
   * first and then by name.
   */
  method ListAudioDevices(devices: seq<HostDevice>) returns (inputs: seq<InputDevice>)
    ensures inputs == SortDevices(Filtered(devices))
    ensures SortedByKey(inputs)
    ensures multiset(inputs) == multiset(Filtered(devices))
  {
    inputs := [];
    for i := 0 to |devices|
      invariant inputs == Select(devices[..i], Listed)
    {
      assert devices[..i + 1][..i] == devices[..i];
      var dev := devices[i];
      var lower := Lower(dev.name);
      if dev.maxInputChannels <= 0 {
        continue;
      }
      if lower in VirtualDevices {
        continue;
      }
      if AnyKeyword(lower, MicNegative) {
        continue;
      }
      if dev.maxInputChannels > MaxInputChannels {
        continue;
      }
      var isHwDevice := IsHardware(dev.name);
      var isLikelyMic := AnyKeyword(lower, MicPositive);
      if isHwDevice || isLikelyMic {
        inputs := inputs + [Describe(i, dev)];
      }
    }
    assert devices[..|devices|] == devices;
    SortDevicesCorrect(inputs);
    inputs := SortDevices(inputs);
  }

  /** A device is listed exactly when the filter keeps it, and it keeps its enumeration index. */
  lemma ListedIff(devices: seq<HostDevice>, inputs: seq<InputDevice>, d: InputDevice)
    requires multiset(inputs) == multiset(Filtered(devices))
    ensures d in inputs <==>
            (0 <= d.index < |devices| && Listed(devices[d.index]) && d == Describe(d.index, devices[d.index]))
  {
    assert d in inputs <==> d in multiset(inputs);
    assert d in Filtered(devices) <==> d in multiset(Filtered(devices));
    FilteredMembership(devices, d);
  }

  /** A negative keyword excludes a device even when its name carries the hardware tag. */
  lemma NegativeOverridesHardware(dev: HostDevice)
    requires AnyKeyword(Lower(dev.name), MicNegative)
    ensures !Listed(dev)
  {
  }

  /** An HDMI monitor output is not a microphone, whatever its hardware binding. */
  lemma HdmiOutputExcluded(channels: int, rate: int)
    ensures !Listed(HostDevice("HDMI Monitor Output (hw:2,3)", channels, rate))
  {
    var lower := Lower("HDMI Monitor Output (hw:2,3)");
    assert lower[0..4] == "hdmi";
    ContainsIff(lower, "hdmi", 0);
    assert MicNegative[2] == "hdmi" && MicNegative[2..] == MicNegative[1..][1..];
  }

  /** A device with more than eight input channels is never listed, whatever its name. */
  lemma AggregatorExcluded(dev: HostDevice)
    requires dev.maxInputChannels > MaxInputChannels
    ensures !Listed(dev)
  {
  }
}
