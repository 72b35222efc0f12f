/**
 * Settings files (`*.settings.json`) as `BASLER_GUI.save_settings` writes them
 * and `BASLER_GUI.load_settings` reads them back: one entry per camera,
 * keyed by the camera's user-defined name, plus five general keys.
 */
module Settings {
  import opened Wrappers
  import opened Text

  /** One camera's entry: exposure time, gain and colour mode. */
  datatype CamSettings = CamSettings(expTime: int, gain: int, colorMode: string)

  /** The parsed JSON object; a general key that is absent from the file is None. */
  datatype SettingsDoc = SettingsDoc(
    cams: map<string, CamSettings>,
    hwTrigg: Option<bool>,
    crf: Option<int>,
    codec: Option<string>,
    fps: Option<int>,
    savePath: Option<string>)

  /**
   * What the window's widgets accept: the ranges of the frame-rate and crf
   * spin boxes and the items of the codec box (`codec_to_try`).
   */
  datatype Limits = Limits(fpsMin: int, fpsMax: int, crfMin: int, crfMax: int, codecs: seq<string>)

  /** The frame-rate spin box never goes below 1 (its value divides a timer interval). */
  predicate ValidLimits(l: Limits)
  {
    1 <= l.fpsMin <= l.fpsMax && l.crfMin <= l.crfMax && |l.codecs| > 0
  }

  /**
   * The general values the window shows (HW-trigger box, crf, codec and frame
   * rate) and the recorder's save path.
   */
  datatype General = General(hwTrig: bool, crf: int, codec: string, fps: int, savePath: string)

  predicate InRange(g: General, l: Limits)
  {
    l.fpsMin <= g.fps <= l.fpsMax && l.crfMin <= g.crf <= l.crfMax && g.codec in l.codecs
  }

  /** The answers the user gives to the file dialogs the window may open ("" is cancel). */
  datatype Dialogs = Dialogs(openFile: string, directory: string, saveFile: string)

  /** `QSpinBox.setValue`: the value is clamped to the box's range. */
  function Clamp(v: int, lo: int, hi: int): (r: int)
    requires lo <= hi
    ensures lo <= r <= hi
    ensures lo <= v <= hi ==> r == v
    ensures v < lo ==> r == lo
    ensures v > hi ==> r == hi
  {
    if v < lo then lo else if v > hi then hi else v
  }

  /** `QComboBox.setCurrentText` on a box that is not editable: only an existing item is selected. */
  function SelectText(current: string, items: seq<string>, text: string): string
  {
    if text in items then text else current
  }

  /**
   * `BASLER_GUI.set_save_path`: an empty path opens a directory dialog; the
   * save path changes only to a non-empty choice.
   */
  function SetSavePath(current: string, given: string, picked: string): (r: string)
  {
    var p := if given == "" then picked else given;
    if p != "" then p else current
  }

  /** The save dialog's name gets `.settings.json` appended when splitting it on `.` gives fewer than two pieces. */
  function SettingsFileName(name: string): string
  {
    if |Split(name, '.')| < 2 then name + ".settings.json" else name
  }

  /** The suffix is appended exactly when the name contains no `.`. */
  lemma SettingsFileNameRule(name: string)
    ensures SettingsFileName(name) == if '.' in name then name else name + ".settings.json"
  {
    SplitCount(name, '.');
    assert '.' in name <==> '.' in multiset(name);
  }

  /** Applying the rule to its own result changes nothing. */
  lemma SettingsFileNameIdempotent(name: string)
    ensures SettingsFileName(SettingsFileName(name)) == SettingsFileName(name)
    ensures '.' in SettingsFileName(name)
  {
    SettingsFileNameRule(name);
    var n := SettingsFileName(name);
    if '.' !in name {
      assert n[|name|] == '.';
    }
    SettingsFileNameRule(n);
  }

  /**
   * The general keys in the order `load_settings` applies them (HW_trigg,
   * crf, codec, fps, save_path); the first absent key raises KeyError, which
   * ends the sequence.
   */
  function LoadGeneral(g: General, doc: SettingsDoc, l: Limits, picked: string): General
    requires ValidLimits(l)
  {
    if doc.hwTrigg.None? then g else
    var g1 := g.(hwTrig := doc.hwTrigg.value);
    if doc.crf.None? then g1 else
    var g2 := g1.(crf := Clamp(doc.crf.value, l.crfMin, l.crfMax));
    if doc.codec.None? then g2 else
    var g3 := g2.(codec := SelectText(g2.codec, l.codecs, doc.codec.value));
    if doc.fps.None? then g3 else
    var g4 := g3.(fps := Clamp(doc.fps.value, l.fpsMin, l.fpsMax));
    if doc.savePath.None? then g4 else
    g4.(savePath := SetSavePath(g4.savePath, doc.savePath.value, picked))
  }

  /** Which of the general keys the file holds, in the order `load_settings` applies them. */
  function KeysPresent(doc: SettingsDoc): (r: seq<bool>)
  {
    [doc.hwTrigg.Some?, doc.crf.Some?, doc.codec.Some?, doc.fps.Some?, doc.savePath.Some?]
  }

  /** How many of the general keys, in application order, are present before the first absent one. */
  function PresentPrefix(doc: SettingsDoc): (k: nat)
    ensures k <= |KeysPresent(doc)|
    ensures forall i :: 0 <= i < k ==> KeysPresent(doc)[i]
    ensures k < |KeysPresent(doc)| ==> !KeysPresent(doc)[k]
  {
    if doc.hwTrigg.None? then 0
    else if doc.crf.None? then 1
    else if doc.codec.None? then 2
    else if doc.fps.None? then 3
    else if doc.savePath.None? then 4
    else 5
  }

  /**
   * Exactly the keys before the first absent one are applied; every value
   * after it keeps its current value, even when its own key is present.
   */
  lemma LoadGeneralStopsAtFirstMissing(g: General, doc: SettingsDoc, l: Limits, picked: string)
    requires ValidLimits(l)
    ensures var r := LoadGeneral(g, doc, l, picked);
      var k := PresentPrefix(doc);
      && r.hwTrig == (if k > 0 then doc.hwTrigg.value else g.hwTrig)
      && r.crf == (if k > 1 then Clamp(doc.crf.value, l.crfMin, l.crfMax) else g.crf)
      && r.codec == (if k > 2 then SelectText(g.codec, l.codecs, doc.codec.value) else g.codec)
      && r.fps == (if k > 3 then Clamp(doc.fps.value, l.fpsMin, l.fpsMax) else g.fps)
      && r.savePath == (if k > 4 then SetSavePath(g.savePath, doc.savePath.value, picked) else g.savePath)
  {
  }

  /** Loading never takes a value out of the widgets' ranges. */
  lemma LoadGeneralInRange(g: General, doc: SettingsDoc, l: Limits, picked: string)
    requires ValidLimits(l) && InRange(g, l)
    ensures InRange(LoadGeneral(g, doc, l, picked), l)
  {
  }

  /**
   * `cam_lib` as `save_settings` builds it: the cameras' entries merged in
   * camera order, so a later camera with the same name overwrites an earlier one.
   */
  function CamLib(names: seq<string>, hw: seq<CamSettings>): map<string, CamSettings>
    requires |names| == |hw|
    decreases |names|
  {
    if names == [] then map[]
    else
      var n := |names| - 1;
      CamLib(names[..n], hw[..n])[names[n] := hw[n]]
  }

  predicate Distinct(names: seq<string>)
  {
    forall i, j :: 0 <= i < j < |names| ==> names[i] != names[j]
  }

  /** The file holds an entry under exactly the cameras' names. */
  lemma {:induction false} CamLibKeys(names: seq<string>, hw: seq<CamSettings>)
    requires |names| == |hw|
    ensures forall name :: name in CamLib(names, hw) <==> name in names
    decreases |names|
  {
    if names != [] {
      var n := |names| - 1;
      CamLibKeys(names[..n], hw[..n]);
      assert names == names[..n] + [names[n]];
    }
  }

  /** With distinct names, every camera finds its own settings under its name. */
  lemma {:induction false} CamLibLookup(names: seq<string>, hw: seq<CamSettings>)
    requires |names| == |hw| && Distinct(names)
    ensures forall i :: 0 <= i < |names| ==> names[i] in CamLib(names, hw)
    ensures forall i :: 0 <= i < |names| ==> CamLib(names, hw)[names[i]] == hw[i]
    decreases |names|
  {
    CamLibKeys(names, hw);
    if names != [] {
      var n := |names| - 1;
      CamLibLookup(names[..n], hw[..n]);
      CamLibKeys(names[..n], hw[..n]);
      forall i | 0 <= i < |names|
        ensures CamLib(names, hw)[names[i]] == hw[i]
      {
        if i < n {
          assert names[i] != names[n];
          assert names[..n][i] == names[i] && hw[..n][i] == hw[i];
        }
      }
    }
  }

  /** The JSON object `save_settings` writes. */
  function SaveDoc(cams: map<string, CamSettings>, g: General): SettingsDoc
  {
    SettingsDoc(cams, Some(g.hwTrig), Some(g.crf), Some(g.codec), Some(g.fps), Some(g.savePath))
  }

  /**
   * Loading a saved file restores every general value, whatever the window
   * showed before, when the values were in the widgets' ranges and a save
   * path was set (an empty one would open a directory dialog instead).
   */
  lemma SaveLoadGeneralRoundTrip(before: General, g: General, cams: map<string, CamSettings>, l: Limits, picked: string)
    requires ValidLimits(l) && InRange(g, l) && g.savePath != ""
    ensures LoadGeneral(before, SaveDoc(cams, g), l, picked) == g
  {
  }
}
