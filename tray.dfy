/**
 * The tray icon's selection and label rules (src/superwhisper/tray.py):
 * which microphone is pre-selected when the submenu is built, how the
 * checkmark is rewritten when the selection changes, the model labels, and
 * which icon shows. Widgets are reduced to their labels: the microphone
 * items are a map from enumeration index to label, the model items a map
 * from model name to label. Icon updates that the source defers to the GUI
 * loop happen at once here.
 */
module Tray {
  import opened Wrappers
  import opened Strings
  import Audio

  /** The two label prefixes: a checkmark and a space, or three spaces. */
  const Check: string := "\U{2713} "
  const Blank: string := "   "

  function Prefix(selected: bool): string {
    if selected then Check else Blank
  }

  /** A microphone item's label as the submenu builds it. */
  function DeviceLabel(name: string, selected: bool, isDefault: bool): string {
    Prefix(selected) + name + (if isDefault then " [default]" else "")
  }

  /** The text after a label's prefix, as `_update_device_labels` reads it. */
  function LabelText(lbl: string): string {
    if StartsWith(lbl, Check) then lbl[|Check|..]
    else if StartsWith(lbl, Blank) then lbl[|Blank|..]
    else lbl
  }

  /** `_update_device_labels` on one item: drop the checkmark, pad, then check it if selected. */
  function Relabel(lbl: string, selected: bool): string {
    var unchecked :=
      if StartsWith(lbl, Check) then Blank + lbl[2..]
      else if StartsWith(lbl, Blank) then lbl
      else Blank + lbl;
    if selected then Check + unchecked[3..] else unchecked
  }

  /** Whichever prefix a label had, or none, rewriting gives the selection's prefix and keeps the text. */
  lemma RelabelShape(lbl: string, selected: bool)
    ensures Relabel(lbl, selected) == Prefix(selected) + LabelText(lbl)
  {
    if StartsWith(lbl, Check) {
      assert lbl[2..] == lbl[|Check|..];
      assert (Blank + lbl[2..])[3..] == lbl[2..];
    } else if StartsWith(lbl, Blank) {
      assert lbl == Blank + lbl[3..];
    } else {
      assert (Blank + lbl)[3..] == lbl;
    }
  }

  /** The text after either prefix reads back as that text. */
  lemma LabelTextOfPrefix(selected: bool, text: string)
    ensures LabelText(Prefix(selected) + text) == text
  {
    var l := Prefix(selected) + text;
    if selected {
      assert l[..|Check|] == Check;
    } else {
      assert l[0] == ' ' && Check[0] != ' ';
      assert !StartsWith(l, Check);
      assert l[..|Blank|] == Blank;
    }
  }

  /** A rewritten label starts with the checkmark exactly when selected, and with three spaces otherwise. */
  lemma RelabelPrefix(lbl: string, selected: bool)
    ensures selected ==> StartsWith(Relabel(lbl, selected), Check)
    ensures !selected ==> StartsWith(Relabel(lbl, selected), Blank) && !StartsWith(Relabel(lbl, selected), Check)
  {
    RelabelShape(lbl, selected);
    var r := Relabel(lbl, selected);
    assert r[..|Prefix(selected)|] == Prefix(selected);
    if !selected {
      assert r[0] == ' ' && Check[0] != ' ';
    }
  }

  /** Rewriting keeps the text after the prefix. */
  lemma RelabelKeepsText(lbl: string, selected: bool)
    ensures LabelText(Relabel(lbl, selected)) == LabelText(lbl)
  {
    RelabelShape(lbl, selected);
    LabelTextOfPrefix(selected, LabelText(lbl));
  }

  /** Only the last rewrite counts; in particular rewriting is idempotent. */
  lemma RelabelTwice(lbl: string, first: bool, second: bool)
    ensures Relabel(Relabel(lbl, first), second) == Relabel(lbl, second)
  {
    RelabelShape(lbl, second);
    RelabelShape(Relabel(lbl, first), second);
    RelabelKeepsText(lbl, first);
  }

  /** A label with either prefix is rewritten to the selection's prefix before the same text. */
  lemma RelabelPrefixed(wasSelected: bool, text: string, selected: bool)
    ensures Relabel(Prefix(wasSelected) + text, selected) == Prefix(selected) + text
  {
    RelabelShape(Prefix(wasSelected) + text, selected);
    LabelTextOfPrefix(wasSelected, text);
  }

  /** Rewriting a label the submenu built gives the label it would have built for the new selection. */
  lemma RelabelBuiltLabel(name: string, wasSelected: bool, isDefault: bool, selected: bool)
    ensures Relabel(DeviceLabel(name, wasSelected, isDefault), selected) == DeviceLabel(name, selected, isDefault)
  {
    var text := name + (if isDefault then " [default]" else "");
    assert DeviceLabel(name, wasSelected, isDefault) == Prefix(wasSelected) + text;
    assert DeviceLabel(name, selected, isDefault) == Prefix(selected) + text;
    RelabelPrefixed(wasSelected, text, selected);
  }

  /** `_update_device_labels` over all items, for the current device. */
  function RelabelAll(items: map<int, string>, current: Option<int>): (r: map<int, string>)
    ensures r.Keys == items.Keys
  {
    map k | k in items :: Relabel(items[k], current == Some(k))
  }

  /** Rewriting all labels twice for the same current device changes nothing more. */
  lemma RelabelAllIdempotent(items: map<int, string>, current: Option<int>)
    ensures RelabelAll(RelabelAll(items, current), current) == RelabelAll(items, current)
  {
    forall k | k in items
      ensures RelabelAll(RelabelAll(items, current), current)[k] == RelabelAll(items, current)[k]
    {
      RelabelTwice(items[k], current == Some(k), current == Some(k));
    }
  }

  /**
   * The name the submenu selects by: the current name, else the saved one
   * (Python's `current or saved`; an empty name counts as no name).
   */
  function TargetName(current: Option<string>, saved: Option<string>): (t: Option<string>)
    ensures t.Some? ==> t.value != "" && (t == current || t == saved)
    ensures t.None? <==> (current.None? || current.value == "") && (saved.None? || saved.value == "")
  {
    if current.Some? && current.value != "" then current
    else if saved.Some? && saved.value != "" then saved
    else None
  }

  /** With a target the device whose name matches is selected; without one, the default device. */
  predicate ShouldSelect(dev: Audio.InputDevice, target: Option<string>, defaultDevice: Option<int>) {
    if target.Some? then dev.name == target.value else defaultDevice == Some(dev.index)
  }

  function ItemLabel(dev: Audio.InputDevice, target: Option<string>, defaultDevice: Option<int>): string {
    DeviceLabel(dev.name, ShouldSelect(dev, target, defaultDevice), defaultDevice == Some(dev.index))
  }

  /** The microphone items the submenu holds after being filled with `devices`. */
  function BuildDeviceItems(devices: seq<Audio.InputDevice>, target: Option<string>,
                            defaultDevice: Option<int>): map<int, string>
    decreases |devices|
  {
    if |devices| == 0 then map[]
    else
      var n := |devices| - 1;
      BuildDeviceItems(devices[..n], target, defaultDevice)[devices[n].index := ItemLabel(devices[n], target, defaultDevice)]
  }

  /** The index of the last device the submenu selects, if any. */
  function LastSelected(devices: seq<Audio.InputDevice>, target: Option<string>,
                        defaultDevice: Option<int>): Option<int>
    decreases |devices|
  {
    if |devices| == 0 then None
    else
      var n := |devices| - 1;
      if ShouldSelect(devices[n], target, defaultDevice) then Some(devices[n].index)
      else LastSelected(devices[..n], target, defaultDevice)
  }

  /** One more device adds its item and, when selected, becomes the last selected. */
  lemma BuildStep(devices: seq<Audio.InputDevice>, i: nat, target: Option<string>, defaultDevice: Option<int>)
    requires i < |devices|
    ensures BuildDeviceItems(devices[..i + 1], target, defaultDevice)
            == BuildDeviceItems(devices[..i], target, defaultDevice)[devices[i].index := ItemLabel(devices[i], target, defaultDevice)]
    ensures LastSelected(devices[..i + 1], target, defaultDevice)
            == if ShouldSelect(devices[i], target, defaultDevice) then Some(devices[i].index)
               else LastSelected(devices[..i], target, defaultDevice)
  {
    assert devices[..i + 1][..i] == devices[..i];
  }

  predicate DistinctIndices(devices: seq<Audio.InputDevice>) {
    forall i, j :: 0 <= i < j < |devices| ==> devices[i].index != devices[j].index
  }

  /** Every listed device has an item, and only they do; with distinct indices each item carries its device's label. */
  lemma {:induction false} BuiltItems(devices: seq<Audio.InputDevice>, target: Option<string>,
                                      defaultDevice: Option<int>, i: nat)
    requires DistinctIndices(devices) && i < |devices|
    ensures devices[i].index in BuildDeviceItems(devices, target, defaultDevice)
    ensures BuildDeviceItems(devices, target, defaultDevice)[devices[i].index] == ItemLabel(devices[i], target, defaultDevice)
    decreases |devices|
  {
    var n := |devices| - 1;
    if i < n {
      assert devices[..n][i] == devices[i];
      assert DistinctIndices(devices[..n]);
      BuiltItems(devices[..n], target, defaultDevice, i);
    }
  }

  lemma {:induction false} BuiltKeys(devices: seq<Audio.InputDevice>, target: Option<string>,
                                     defaultDevice: Option<int>, k: int)
    ensures k in BuildDeviceItems(devices, target, defaultDevice) <==> exists i :: 0 <= i < |devices| && devices[i].index == k
    decreases |devices|
  {
    if |devices| > 0 {
      var n := |devices| - 1;
      BuiltKeys(devices[..n], target, defaultDevice, k);
      if exists i :: 0 <= i < n && devices[..n][i].index == k {
        var i :| 0 <= i < n && devices[..n][i].index == k;
        assert devices[i].index == k;
      }
      if exists i :: 0 <= i < |devices| && devices[i].index == k {
        var i :| 0 <= i < |devices| && devices[i].index == k;
        if i < n { assert devices[..n][i].index == k; }
      }
    }
  }

  /** The pre-selected index belongs to a device the rule selects; none is chosen only when the rule selects none. */
  lemma {:induction false} LastSelectedIsSelected(devices: seq<Audio.InputDevice>, target: Option<string>,
                                                  defaultDevice: Option<int>)
    ensures var s := LastSelected(devices, target, defaultDevice);
            s.Some? ==> exists i :: 0 <= i < |devices| && devices[i].index == s.value && ShouldSelect(devices[i], target, defaultDevice)
    ensures LastSelected(devices, target, defaultDevice).None? <==>
            forall i :: 0 <= i < |devices| ==> !ShouldSelect(devices[i], target, defaultDevice)
    decreases |devices|
  {
    if |devices| > 0 {
      var n := |devices| - 1;
      LastSelectedIsSelected(devices[..n], target, defaultDevice);
      assert forall i :: 0 <= i < n ==> devices[..n][i] == devices[i];
    }
  }

  /** The entries of the model submenu. */
  datatype ModelEntry = ModelEntry(name: string, size: string, downloaded: bool)

  /** A model item's label: prefix, `name (size)`, and a marker when the model is not downloaded. */
  function ModelLabel(name: string, size: string, selected: bool, downloaded: bool): string {
    Prefix(selected) + name + " (" + size + ")" + (if downloaded then "" else " [not downloaded]")
  }

  function EndsWith(s: string, suffix: string): bool {
    |suffix| <= |s| && s[|s| - |suffix|..] == suffix
  }

  /** A model label carries the "not downloaded" marker exactly when the model is not downloaded. */
  lemma ModelLabelMarker(name: string, size: string, selected: bool, downloaded: bool)
    ensures EndsWith(ModelLabel(name, size, selected, downloaded), " [not downloaded]") <==> !downloaded
    ensures StartsWith(ModelLabel(name, size, selected, downloaded), Check) <==> selected
  {
    var l := ModelLabel(name, size, selected, downloaded);
    var marker := " [not downloaded]";
    if downloaded {
      assert l[|l| - 1] == ')';
      if |marker| <= |l| {
        assert l[|l| - |marker|..][|marker| - 1] == ')' != marker[|marker| - 1];
      }
    }
    assert l[..|Prefix(selected)|] == Prefix(selected);
    if !selected {
      assert l[0] == ' ' && Check[0] != ' ';
    }
  }

  /** The first entry with the name: where `_update_model_labels` takes the size from. */
  function FirstModel(models: seq<ModelEntry>, name: string): (r: Option<ModelEntry>)
    ensures r.Some? ==> r.value in models && r.value.name == name
    ensures r.None? ==> forall i :: 0 <= i < |models| ==> models[i].name != name
    decreases |models|
  {
    if |models| == 0 then None
    else if models[0].name == name then Some(models[0])
    else FirstModel(models[1..], name)
  }

  /** `{m.name: m.downloaded for m in models}.get(name, False)`: the last entry wins. */
  function DownloadStatus(models: seq<ModelEntry>, name: string): bool
    decreases |models|
  {
    if |models| == 0 then false
    else if models[|models| - 1].name == name then models[|models| - 1].downloaded
    else DownloadStatus(models[..|models| - 1], name)
  }

  /** With one entry per name, the size and the download status come from that entry. */
  lemma {:induction false} UniqueEntry(models: seq<ModelEntry>, i: nat)
    requires i < |models|
    requires forall j, k :: 0 <= j < k < |models| ==> models[j].name != models[k].name
    ensures FirstModel(models, models[i].name) == Some(models[i])
    ensures DownloadStatus(models, models[i].name) == models[i].downloaded
  {
    FirstUnique(models, i);
    LastUnique(models, i);
  }

  lemma {:induction false} FirstUnique(models: seq<ModelEntry>, i: nat)
    requires i < |models|
    requires forall j :: 0 <= j < i ==> models[j].name != models[i].name
    ensures FirstModel(models, models[i].name) == Some(models[i])
    decreases i
  {
    if i > 0 {
      FirstUnique(models[1..], i - 1);
    }
  }

  lemma {:induction false} LastUnique(models: seq<ModelEntry>, i: nat)
    requires i < |models|
    requires forall j :: i < j < |models| ==> models[j].name != models[i].name
    ensures DownloadStatus(models, models[i].name) == models[i].downloaded
    decreases |models|
  {
    var n := |models| - 1;
    if i < n {
      assert models[..n][i] == models[i];
      LastUnique(models[..n], i);
    }
  }

  /** `_update_model_labels`: each item for a known model is rebuilt; items for unknown models stay as they are. */
  function UpdatedModelItems(items: map<string, string>, models: seq<ModelEntry>, currentModel: string): (r: map<string, string>)
    ensures r.Keys == items.Keys
  {
    map name | name in items ::
      match FirstModel(models, name)
      case None => items[name]
      case Some(info) => ModelLabel(name, info.size, name == currentModel, DownloadStatus(models, name))
  }

  /**
   * One item after `_update_model_labels`: an unknown model's label is kept;
   * a known model's label carries the checkmark iff it is the current model,
   * shows its name and the size of its first entry, and carries the
   * "not downloaded" marker iff its download status is false.
   */
  lemma UpdatedModelLabel(items: map<string, string>, models: seq<ModelEntry>, currentModel: string, name: string)
    requires name in items
    ensures name in UpdatedModelItems(items, models, currentModel)
    ensures FirstModel(models, name).None? ==> UpdatedModelItems(items, models, currentModel)[name] == items[name]
    ensures FirstModel(models, name).Some? ==>
              var l := UpdatedModelItems(items, models, currentModel)[name];
              var selected := name == currentModel;
              && (StartsWith(l, Check) <==> selected)
              && (EndsWith(l, " [not downloaded]") <==> !DownloadStatus(models, name))
              && StartsWith(l[|Prefix(selected)|..], name + " (" + FirstModel(models, name).value.size + ")")
  {
    match FirstModel(models, name)
    case None =>
    case Some(info) =>
      var selected := name == currentModel;
      var downloaded := DownloadStatus(models, name);
      assert UpdatedModelItems(items, models, currentModel)[name] == ModelLabel(name, info.size, selected, downloaded);
      ModelLabelMarker(name, info.size, selected, downloaded);
      ModelLabelText(name, info.size, selected, downloaded);
  }

  /** After its prefix a model label reads `name (size)`. */
  lemma ModelLabelText(name: string, size: string, selected: bool, downloaded: bool)
    ensures |Prefix(selected)| <= |ModelLabel(name, size, selected, downloaded)|
    ensures StartsWith(ModelLabel(name, size, selected, downloaded)[|Prefix(selected)|..], name + " (" + size + ")")
  {
    var text := name + " (" + size + ")";
    var marker := if downloaded then "" else " [not downloaded]";
    var l := ModelLabel(name, size, selected, downloaded);
    assert l == Prefix(selected) + (text + marker);
    assert l[|Prefix(selected)|..] == text + marker;
    assert (text + marker)[..|text|] == text;
  }

  /** The model submenu as `_create_menu` fills it. */
  function BuildModelItems(models: seq<ModelEntry>, currentModel: string): map<string, string>
    decreases |models|
  {
    if |models| == 0 then map[]
    else
      var n := |models| - 1;
      var m := models[n];
      BuildModelItems(models[..n], currentModel)[m.name := ModelLabel(m.name, m.size, m.name == currentModel, m.downloaded)]
  }

  /** The tray icon's image. */
  datatype Icon = Idle | Recording | Transcribing

  /** Recording shows over transcribing, transcribing over idle. */
  function IconFor(recording: bool, transcribing: bool): (icon: Icon)
    ensures icon == Recording <==> recording
    ensures icon == Transcribing <==> !recording && transcribing
    ensures icon == Idle <==> !recording && !transcribing
  {
    if recording then Recording else if transcribing then Transcribing else Idle
  }

  /** `TrayIcon`, reduced to its selection state, its item labels and its icon. */
  class TrayIcon {
    const savedDeviceName: Option<string>
    const hasDeviceCallback: bool
    const hasModelCallback: bool
    var currentModel: string
    var currentDevice: Option<int>
    var currentDeviceName: Option<string>
    var recording: bool
    var transcribing: bool
    var hasIndicator: bool
    var icon: Icon
    var hasMicSubmenu: bool
    var deviceItems: map<int, string>
    var modelItems: map<string, string>

    /** Once the indicator exists, it shows the icon for the current state. */
    predicate Synced()
      reads this
    {
      hasIndicator ==> icon == IconFor(recording, transcribing)
    }

    constructor (savedDeviceName: Option<string>, currentModel: string,
                 hasDeviceCallback: bool, hasModelCallback: bool)
      ensures Synced()
      ensures this.savedDeviceName == savedDeviceName && this.currentModel == currentModel
      ensures this.hasDeviceCallback == hasDeviceCallback && this.hasModelCallback == hasModelCallback
      ensures currentDevice == None && currentDeviceName == savedDeviceName
      ensures !recording && !transcribing && !hasIndicator && !hasMicSubmenu
      ensures deviceItems == map[] && modelItems == map[]
    {
      this.savedDeviceName := savedDeviceName;
      this.currentModel := currentModel;
      this.hasDeviceCallback := hasDeviceCallback;
      this.hasModelCallback := hasModelCallback;
      currentDevice := None;
      currentDeviceName := savedDeviceName;
      recording := false;
      transcribing := false;
      hasIndicator := false;
      icon := Idle;
      hasMicSubmenu := false;
      deviceItems := map[];
      modelItems := map[];
    }

    /**
     * `_populate_mic_submenu` with `devices` as found and `defaultDevice`
     * the host's default input. Items are rebuilt from scratch; the last
     * device the rule selects becomes the current device.
     */
    method PopulateMicSubmenu(devices: seq<Audio.InputDevice>, defaultDevice: Option<int>)
      modifies this
      ensures var target := TargetName(old(currentDeviceName), savedDeviceName);
              if old(hasMicSubmenu) then
                && deviceItems == BuildDeviceItems(devices, target, defaultDevice)
                && currentDevice == OrElse(LastSelected(devices, target, defaultDevice), old(currentDevice))
              else deviceItems == old(deviceItems) && currentDevice == old(currentDevice)
      ensures currentDeviceName == old(currentDeviceName) && currentModel == old(currentModel)
      ensures recording == old(recording) && transcribing == old(transcribing)
      ensures hasIndicator == old(hasIndicator) && icon == old(icon) && hasMicSubmenu == old(hasMicSubmenu)
      ensures modelItems == old(modelItems)
    {
      if !hasMicSubmenu {
        return;
      }
      var target := TargetName(currentDeviceName, savedDeviceName);
      deviceItems := map[];
      for i := 0 to |devices|
        modifies this`deviceItems, this`currentDevice
        invariant deviceItems == BuildDeviceItems(devices[..i], target, defaultDevice)
        invariant currentDevice == OrElse(LastSelected(devices[..i], target, defaultDevice), old(currentDevice))
      {
        BuildStep(devices, i, target, defaultDevice);
        var dev := devices[i];
        var shouldSelect := ShouldSelect(dev, target, defaultDevice);
        var lbl := DeviceLabel(dev.name, shouldSelect, defaultDevice == Some(dev.index));
        if shouldSelect {
          currentDevice := Some(dev.index);
        }
        deviceItems := deviceItems[dev.index := lbl];
      }
      assert devices[..|devices|] == devices;
    }

    /** `_update_device_labels` */
    method UpdateDeviceLabels()
      modifies this`deviceItems
      ensures deviceItems == RelabelAll(old(deviceItems), currentDevice)
    {
      deviceItems := RelabelAll(deviceItems, currentDevice);
    }

    /**
     * `_on_device_toggled`: only an activated item changes the selection and
     * the labels; `fired` holds the arguments passed to the change callback.
     */
    method OnDeviceToggled(active: bool, index: int, name: string) returns (fired: Option<(int, string)>)
      modifies this
      ensures active ==> currentDevice == Some(index) && currentDeviceName == Some(name)
                         && deviceItems == RelabelAll(old(deviceItems), Some(index))
      ensures !active ==> currentDevice == old(currentDevice) && currentDeviceName == old(currentDeviceName)
                          && deviceItems == old(deviceItems)
      ensures fired == if active && hasDeviceCallback then Some((index, name)) else None
      ensures currentModel == old(currentModel) && modelItems == old(modelItems)
      ensures recording == old(recording) && transcribing == old(transcribing)
      ensures hasIndicator == old(hasIndicator) && icon == old(icon) && hasMicSubmenu == old(hasMicSubmenu)
    {
      fired := None;
      if active {
        currentDevice := Some(index);
        currentDeviceName := Some(name);
        UpdateDeviceLabels();
        if hasDeviceCallback {
          fired := Some((index, name));
        }
      }
    }

    /** `_update_model_labels` against the models as found now. */
    method UpdateModelLabels(models: seq<ModelEntry>)
      modifies this`modelItems
      ensures modelItems == UpdatedModelItems(old(modelItems), models, currentModel)
    {
      modelItems := UpdatedModelItems(modelItems, models, currentModel);
    }

    /** `_on_model_toggled`: `fired` is the name passed to the change callback. */
    method OnModelToggled(active: bool, name: string, models: seq<ModelEntry>) returns (fired: Option<string>)
      modifies this
      ensures active ==> currentModel == name && modelItems == UpdatedModelItems(old(modelItems), models, name)
      ensures !active ==> currentModel == old(currentModel) && modelItems == old(modelItems)
      ensures fired == if active && hasModelCallback then Some(name) else None
      ensures currentDevice == old(currentDevice) && currentDeviceName == old(currentDeviceName)
      ensures deviceItems == old(deviceItems)
      ensures recording == old(recording) && transcribing == old(transcribing)
      ensures hasIndicator == old(hasIndicator) && icon == old(icon) && hasMicSubmenu == old(hasMicSubmenu)
    {
      fired := None;
      if active {
        currentModel := name;
        UpdateModelLabels(models);
        if hasModelCallback {
          fired := Some(name);
        }
      }
    }

    /** `_create_menu`: the model items, then the microphone submenu. */
    method CreateMenu(models: seq<ModelEntry>, devices: seq<Audio.InputDevice>, defaultDevice: Option<int>)
      modifies this
      ensures modelItems == old(modelItems) + BuildModelItems(models, currentModel)
      ensures hasMicSubmenu
      ensures var target := TargetName(old(currentDeviceName), savedDeviceName);
              && deviceItems == BuildDeviceItems(devices, target, defaultDevice)
              && currentDevice == OrElse(LastSelected(devices, target, defaultDevice), old(currentDevice))
      ensures currentDeviceName == old(currentDeviceName) && currentModel == old(currentModel)
      ensures recording == old(recording) && transcribing == old(transcribing)
      ensures hasIndicator == old(hasIndicator) && icon == old(icon)
    {
      ghost var before := modelItems;
      for i := 0 to |models|
        modifies this`modelItems
        invariant modelItems == before + BuildModelItems(models[..i], currentModel)
      {
        assert models[..i + 1][..i] == models[..i];
        var m := models[i];
        var selected := m.name == currentModel;
        var text := ModelLabel(m.name, m.size, selected, m.downloaded);
        assert (before + BuildModelItems(models[..i], currentModel))[m.name := text]
            == before + BuildModelItems(models[..i], currentModel)[m.name := text];
        modelItems := modelItems[m.name := text];
      }
      assert models[..|models|] == models;
      hasMicSubmenu := true;
      PopulateMicSubmenu(devices, defaultDevice);
    }

    /** `run` up to the GUI loop: the indicator appears with the idle icon, then the menu is built. */
    method Run(models: seq<ModelEntry>, devices: seq<Audio.InputDevice>, defaultDevice: Option<int>)
      modifies this
      ensures hasIndicator && icon == Idle && hasMicSubmenu
      ensures Synced() <==> !recording && !transcribing
      ensures recording == old(recording) && transcribing == old(transcribing)
      ensures modelItems == old(modelItems) + BuildModelItems(models, currentModel)
    {
      hasIndicator := true;
      icon := Idle;
      CreateMenu(models, devices, defaultDevice);
    }

    /** `set_recording`: while recording the recording icon shows, else the transcribing or idle one. */
    method SetRecording(value: bool)
      modifies this`recording, this`icon
      ensures recording == value
      ensures icon == if hasIndicator then IconFor(value, transcribing) else old(icon)
      ensures old(Synced()) ==> Synced()
      ensures hasIndicator ==> Synced()
    {
      recording := value;
      if hasIndicator {
        icon := if value then Recording else if transcribing then Transcribing else Idle;
      }
    }

    /** `set_transcribing`: changes the icon only when not recording. */
    method SetTranscribing(value: bool)
      modifies this`transcribing, this`icon
      ensures transcribing == value
      ensures icon == if hasIndicator && !recording then IconFor(false, value) else old(icon)
      ensures old(Synced()) ==> Synced()
    {
      transcribing := value;
      if hasIndicator && !recording {
        icon := if value then Transcribing else Idle;
      }
    }
  }
}
