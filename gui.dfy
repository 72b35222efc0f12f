/**
 * The recorder window itself: `BASLER_GUI` as an object whose handlers update
 * its attributes in place, each proved to leave the window in the state the
 * matching function of `Control` describes, and to keep its invariant.
 */
module Gui {
  import opened Wrappers
  import opened Text
  import opened Settings
  import opened Files
  import opened Control
  import opened ControlProperties

  class BaslerGui {
    const cfg: Config
    var attrs: Attrs
    var timers: Timers
    var widgets: Widgets
    // collaborators and what was asked of them
    var rec: Recorder
    var trigger: Option<Trigger>
    var fs: Fs
    var sent: seq<Reply>
    var calls: seq<Call>

    /** The window's attributes as a value. */
    function Model(): State
      reads this
    {
      State(cfg, attrs, timers, widgets, rec, trigger, fs, sent, calls)
    }

    ghost predicate Valid()
      reads this
    {
      Invariant(Model())
    }

    /** `__init__`, given the widgets' ranges and values and the collaborators it connects to. */
    constructor (cfg: Config, rec: Recorder, trigger: Option<Trigger>, fs: Fs,
                 frameRate: int, codec: string, crf: int, hwTrig: bool, disableViz: bool,
                 camSpins: seq<CamSettings>)
      requires ValidLimits(cfg.limits) && InRange(General(hwTrig, crf, codec, frameRate, rec.savePath), cfg.limits)
      requires |camSpins| == |rec.camNames| == |rec.camHw| == |rec.queues|
      ensures Model() == Initial(cfg, rec, trigger, fs, frameRate, codec, crf, hwTrig, disableViz, camSpins)
      ensures Valid() && !attrs.isRemoteCtr
    {
      this.cfg := cfg;
      attrs := Attrs("test_sess", None, false, 0, None, 0, false);
      timers := Timers(None, None, None, None, None, None, None);
      widgets := Widgets(frameRate, codec, crf, hwTrig, "", disableViz, camSpins);
      this.rec := rec;
      this.trigger := trigger;
      this.fs := fs;
      sent := [];
      calls := [];
      InitialInvariant(cfg, rec, trigger, fs, frameRate, codec, crf, hwTrig, disableViz, camSpins);
    }

    method StartRecording()
      requires Valid()
      modifies this
      ensures Model() == Control.StartRecording(old(Model()))
      ensures Valid()
    {
      var sessionId := attrs.sessionId;
      var text := widgets.sessionIdText;
      if text != "" {
        sessionId := text;
      }
      attrs := attrs.(filesCopied := false, stopEvent := Some(false), sessionId := sessionId,
                      numberCams := |rec.camNames|);
      rec := rec.(fps := widgets.frameRate, codec := widgets.codec, crf := widgets.crf);
      var useHwTrigger := widgets.hwTrig;
      calls := calls + [RunMultiCamRecord(sessionId, useHwTrigger)];
      var multiView := Some(Timer(5, false, UpdateMultiViewSlot));
      if trigger.Some? && useHwTrigger {
        trigger := Some(trigger.value.(fps := widgets.frameRate));
        timers := timers.(multiViewTimer := multiView, triggerTimer := Some(Timer(500, true, TriggerStartTriggerSlot)));
      } else {
        timers := timers.(multiViewTimer := multiView);
      }
      assert Model() == Control.StartRecording(old(Model()));
      StartsKeepInvariant(old(Model()));
    }

    method StartRecordingCalib()
      requires Valid()
      modifies this
      ensures Model() == Control.StartRecordingCalib(old(Model()))
      ensures Valid()
    {
      widgets := widgets.(hwTrig := true);
      timers := timers.(calibStartTimer := Some(Timer(cfg.calibWait, true, StartRecordingSlot)),
                        calibStopTimer := Some(Timer(cfg.calibDuration + cfg.calibWait, true, StopCamsSlot)));
      assert Model() == Control.StartRecordingCalib(old(Model()));
      StartsKeepInvariant(old(Model()));
    }

    method ShowMultipleCam()
      requires Valid()
      modifies this
      ensures Model() == Control.ShowMultipleCam(old(Model()))
      ensures Valid()
    {
      attrs := attrs.(stopEvent := Some(false), numberCams := |rec.camNames|);
      rec := rec.(fps := widgets.frameRate);
      var useHwTrigger := widgets.hwTrig;
      calls := calls + [RunMultiCamShow(useHwTrigger)];
      var multiView := Some(Timer(ShowInterval(widgets.frameRate), false, UpdateMultiViewSlot));
      if trigger.Some? && useHwTrigger {
        trigger := Some(trigger.value.(fps := widgets.frameRate));
        timers := timers.(multiViewTimer := multiView, triggerTimer := Some(Timer(500, true, TriggerStartSlot)));
      } else {
        timers := timers.(multiViewTimer := multiView);
      }
      assert Model() == Control.ShowMultipleCam(old(Model()));
      StartsKeepInvariant(old(Model()));
    }

    method StopCams()
      requires Valid()
      modifies this
      ensures Model() == Control.StopCams(old(Model()))
      ensures Valid()
    {
      StopCamsKeepsInvariant(Model());
      if trigger.Some? && widgets.hwTrig {
        if trigger.value.isPulsing {
          calls := calls + [StopTrigger];
          timers := timers.(triggerStopTimer := Some(Timer(500, true, StopCamsSlot)));
          return;
        }
      }
      if attrs.stopEvent.Some? {
        attrs := attrs.(stopEvent := Some(true));
      }
      var t := timers.(calibStartTimer := None, calibStopTimer := None);
      // the recorder calls, in the order they are made
      var stops: seq<Call> := [];
      if t.singleViewTimer.Some? {
        t := t.(singleViewTimer := None);
        stops := stops + [StopSingleCamShow];
      }
      if t.multiViewTimer.Some? {
        t := t.(multiViewTimer := None);
        if rec.isRecording {
          stops := stops + [StopMultiCamRecord];
        } else {
          stops := stops + [StopMultiCamShow];
        }
      }
      timers := t;
      calls := calls + stops;
    }

    method EnterRemoteMode()
      requires Valid()
      modifies this
      ensures Model() == Control.EnterRemoteMode(old(Model()))
      ensures Valid()
    {
      timers := timers.(remoteTimer := Some(Timer(500, false, CheckMessagesSlot)));
      attrs := attrs.(isRemoteCtr := true);
      sent := sent + [StatusReady];
      EnterThenExit(old(Model()));
    }

    method ExitRemoteMode()
      requires Valid()
      modifies this
      ensures Model() == Control.ExitRemoteMode(old(Model()))
      ensures Valid()
    {
      calls := calls + [CloseSocket];
      timers := timers.(remoteTimer := None);
      attrs := attrs.(isRemoteCtr := false);
      widgets := widgets.(sessionIdText := "");
    }

    /** `copy_recorded_file`: the copy loop, ended by the first failing copy. */
    method CopyRecordedFile()
      requires Valid() && attrs.sessionPath.Some?
      modifies this
      ensures Model() == Control.CopyRecordedFile(old(Model()))
      ensures Valid()
    {
      FileHandlersKeepInvariant(Model());
      if rec.isRecording || attrs.filesCopied {
        return;
      }
      var dst := Dest(attrs.sessionPath.value, attrs.sessionId, cfg.videoFolder);
      var ws := rec.writers;
      for i := 0 to |ws|
        invariant Model() == old(Model()).(fs := fs)
        invariant CopyWriters(ws, dst, old(fs)) == CopyWriters(ws[i..], dst, fs)
      {
        assert ws[i..][1..] == ws[i + 1..];
        var w := ws[i];
        if w.stopped {
          ghost var expected := CopyOne(w, dst, fs);
          var failed := false;
          if Contains(dst.sessionId, "MusterMaus") {
            var r := CopyFile(fs, w.videoPath, dst.sessionPath, Basename(w.videoPath));
            if r.None? {
              failed := true;
            } else {
              fs := r.value;
            }
          } else {
            var folder := PathJoin(dst.sessionPath, dst.videoFolder);
            if Exists(fs, dst.sessionPath) {
              var m := MakeDir(fs, dst.sessionPath, folder);
              if m.None? {
                failed := true;
              } else {
                fs := m.value;
              }
            }
            if !failed {
              var r := CopyFile(fs, w.videoPath, folder, Basename(w.videoPath));
              if r.None? {
                failed := true;
              } else {
                fs := r.value;
              }
            }
          }
          assert failed == expected.failed && fs == expected.fs;
          if failed {
            sent := sent + [RespondCopyFail];
            return;
          }
        }
      }
      attrs := attrs.(filesCopied := true);
      sent := sent + [RespondCopy];
    }

    /**
     * `purge_recorded_file`: deletes the finished writers' files in order;
     * `raised` reports the FileNotFoundError that ends the loop at a file
     * that is already gone.
     */
    method PurgeRecordedFile() returns (raised: bool)
      requires Valid()
      modifies this
      ensures Model() == Control.PurgeRecordedFile(old(Model()))
      ensures raised == PurgeWriters(old(rec.writers), old(fs)).failed
      ensures Valid()
    {
      FileHandlersKeepInvariant(Model());
      var ws := rec.writers;
      for i := 0 to |ws|
        invariant Model() == old(Model()).(fs := fs)
        invariant PurgeWriters(ws, old(fs)) == PurgeWriters(ws[i..], fs)
      {
        assert ws[i..][1..] == ws[i + 1..];
        if ws[i].stopped {
          if ws[i].videoPath !in fs.files {
            raised := true;
            return;
          }
          fs := Unlink(fs, ws[i].videoPath);
        }
      }
      raised := false;
    }

    /**
     * `load_settings(file)`: `notFound` is the FileNotFoundError of a missing
     * file, which leaves the window as it was.
     */
    method LoadSettings(file: string, d: Dialogs) returns (notFound: bool)
      requires Valid()
      modifies this
      ensures var r := Control.LoadSettings(old(Model()), file, d);
        && notFound == r.None?
        && Model() == if r.None? then old(Model()) else r.value
      ensures Valid()
    {
      notFound := false;
      if !rec.camsConnected {
        return;
      }
      var f := file;
      if f == "" {
        if d.openFile == "" {
          return;
        }
        f := d.openFile;
      }
      if f !in fs.docs {
        notFound := true;
        return;
      }
      var doc := fs.docs[f];
      ApplyCamSettings(doc.cams);
      ApplyGeneralSettings(doc, d.directory);
    }

    /** The per-camera loop of `load_settings`: a camera without an entry is skipped. */
    method ApplyCamSettings(cams: map<string, CamSettings>)
      requires |widgets.camSpins| == |rec.camNames|
      modifies this
      ensures Model() == old(Model()).(widgets := old(widgets).(camSpins := LoadedSpins(old(rec.camNames), old(widgets.camSpins), cams)),
                                       calls := old(calls) + CamCalls(old(rec.camNames), cams, 0))
    {
      var names := rec.camNames;
      for c := 0 to |names|
        invariant |widgets.camSpins| == |names|
        invariant forall i :: 0 <= i < c ==>
          widgets.camSpins[i] == if names[i] in cams then cams[names[i]] else old(widgets.camSpins)[i]
        invariant forall i :: c <= i < |names| ==> widgets.camSpins[i] == old(widgets.camSpins)[i]
        invariant calls + CamCalls(names, cams, c) == old(calls) + CamCalls(names, cams, 0)
        invariant Model() == old(Model()).(widgets := old(widgets).(camSpins := widgets.camSpins), calls := calls)
      {
        if names[c] in cams {
          var settings := cams[names[c]];
          calls := calls + [SetCamSettings(c, settings)];
          widgets := widgets.(camSpins := widgets.camSpins[c := settings]);
        } else {
          assert CamCalls(names, cams, c) == CamCalls(names, cams, c + 1);
        }
      }
      assert widgets.camSpins == LoadedSpins(names, old(widgets.camSpins), cams);
      assert calls == old(calls) + CamCalls(names, cams, 0);
    }

    /** The general keys of `load_settings`, in order; the first absent one raises KeyError, which is caught. */
    method ApplyGeneralSettings(doc: SettingsDoc, picked: string)
      requires ValidLimits(cfg.limits)
      modifies this
      ensures Model() == WithGeneral(old(Model()), LoadGeneral(GeneralOf(old(Model())), doc, cfg.limits, picked))
    {
      if doc.hwTrigg.None? {
        return;
      }
      widgets := widgets.(hwTrig := doc.hwTrigg.value);
      if doc.crf.None? {
        return;
      }
      widgets := widgets.(crf := Clamp(doc.crf.value, cfg.limits.crfMin, cfg.limits.crfMax));
      if doc.codec.None? {
        return;
      }
      widgets := widgets.(codec := SelectText(widgets.codec, cfg.limits.codecs, doc.codec.value));
      if doc.fps.None? {
        return;
      }
      widgets := widgets.(frameRate := Clamp(doc.fps.value, cfg.limits.fpsMin, cfg.limits.fpsMax));
      if doc.savePath.None? {
        return;
      }
      rec := rec.(savePath := SetSavePath(rec.savePath, doc.savePath.value, picked));
    }

    /** `save_settings`: builds the cameras' entries, then writes the file the save dialog names. */
    method SaveSettings(d: Dialogs)
      requires Valid()
      modifies this
      ensures Model() == Control.SaveSettings(old(Model()), d)
      ensures Valid()
    {
      SaveSettingsEffect(Model(), d);
      if !rec.camsConnected {
        return;
      }
      var names, hw := rec.camNames, rec.camHw;
      var camLib: map<string, CamSettings> := map[];
      for c := 0 to |names|
        invariant camLib == CamLib(names[..c], hw[..c])
      {
        assert names[..c + 1][..c] == names[..c] && hw[..c + 1][..c] == hw[..c];
        camLib := camLib[names[c] := hw[c]];
      }
      assert names[..|names|] == names && hw[..|hw|] == hw;
      var doc := SaveDoc(camLib, General(widgets.hwTrig, widgets.crf, widgets.codec, widgets.frameRate, rec.savePath));
      var filename := d.saveFile;
      if filename == "" {
        return;
      }
      if |Split(filename, '.')| < 2 {
        filename := filename + ".settings.json";
      }
      fs := fs.(files := fs.files + {filename}, docs := fs.docs[filename := doc]);
    }

    /** `update_multi_view`: one firing of the preview poll. */
    method UpdateMultiView()
      requires Valid()
      modifies this
      ensures Model() == Tick(old(Model()))
      ensures Valid()
    {
      ghost var s0 := Model();
      TickKeepsInvariant(s0);
      if rec.errorSet {
        StopCams();
        if cfg.hasSocket {
          sent := sent + [RespondRecordingFail];
        }
        return;
      }
      var counter := attrs.timerUpdateCounter + 1;
      var labelUpdate: seq<Call> := [];
      if counter >= 20 {
        labelUpdate := [UpdateRecTimer];
        counter := 0;
      }
      attrs := attrs.(timerUpdateCounter := counter);
      var queues, shown, complete := PopQueues(rec.queues, attrs.numberCams, widgets.disableViz);
      rec := rec.(queues := queues);
      calls := calls + labelUpdate + shown;
      if complete && !rec.isRecording && !rec.isViewing && cfg.hasSocket {
        sent := sent + [RespondRecordingFail];
      }
    }

    /**
     * `check_and_parse_messages`, for the message the socket yields (None
     * when there is none); it runs from the message-poll timer, so in remote mode.
     */
    method CheckAndParseMessages(msg: Option<Message>, d: Dialogs)
      requires Valid() && attrs.isRemoteCtr
      modifies this
      ensures Model() == Dispatch(old(Model()), msg, d)
      ensures Valid()
    {
      DispatchKeepsInvariant(Model(), msg, d);
      if msg.None? {
        return;
      }
      var m := msg.value;
      if m.IsStart() {
        if rec.isRecording || rec.isViewing {
          sent := sent + [StatusError];
          return;
        }
        StartFromMessage(m, d);
      } else if m.StopVideo? {
        StopCams();
        timers := timers.(remoteTimer := Some(timers.remoteTimer.value.(intervalMs := 500)));
        sent := sent + [RespondStop];
      } else if m.PollStatus? {
        var reply := if rec.isRecording then StatusRecording
                     else if rec.isViewing then StatusViewing
                     else if attrs.isRemoteCtr then StatusReady
                     else StatusError;
        sent := sent + [reply];
      } else if m.Disconnected? {
        ExitRemoteMode();
      } else if m.CopyFiles? {
        attrs := attrs.(sessionPath := m.sessionPath);
        if m.sessionPath.Some? && m.sessionPath.value != "" {
          CopyRecordedFile();
        }
      } else if m.PurgeFiles? {
        var raised := PurgeRecordedFile();
      }
    }

    /** The accepted-start branch of `check_and_parse_messages`. */
    method StartFromMessage(m: Message, d: Dialogs)
      requires Valid() && attrs.isRemoteCtr && m.IsStart()
      modifies this
      ensures Model() == AcceptStart(old(Model()), m, d)
      ensures Valid()
    {
      ApplyStartArgs(m.args, d);
      if m.StartVideoRec? {
        StartRecording();
        sent := sent + [RespondRecording];
      } else if m.StartVideoView? {
        ShowMultipleCam();
        sent := sent + [RespondViewing];
      } else {
        StartRecordingCalib();
        sent := sent + [RespondCalib];
      }
      assert Model() == AcceptStart(old(Model()), m, d);
      AcceptStartKeepsInvariant(old(Model()), m, d);
    }

    /** The settings file, session id, frame rate and poll interval a start message carries. */
    method ApplyStartArgs(args: StartArgs, d: Dialogs)
      requires Valid() && attrs.isRemoteCtr
      modifies this
      ensures Model() == PrepareStart(old(Model()), args, d)
      ensures Valid() && attrs.isRemoteCtr
    {
      var settingFile := args.settingFile;
      if settingFile.Some? && settingFile.value != "" {
        var notFound := LoadSettings(settingFile.value, d);
      }
      assert Model() == LoadRequested(old(Model()), settingFile, d);
      attrs := attrs.(sessionId := args.sessionId);
      var fr := args.frameRate;
      if fr.Some? && fr.value != 0 {
        widgets := widgets.(sessionIdText := args.sessionId, frameRate := Clamp(fr.value, cfg.limits.fpsMin, cfg.limits.fpsMax));
      } else {
        widgets := widgets.(sessionIdText := args.sessionId);
      }
      timers := timers.(remoteTimer := Some(timers.remoteTimer.value.(intervalMs := 5000)));
    }
  }

  /**
   * The loop of `update_multi_view` over the first `n` cameras' preview
   * queues: one frame from each queue, shown unless visualisation is
   * disabled; an empty queue raises Empty, which ends the tick (`complete`
   * is false then).
   */
  method PopQueues(qs: seq<seq<Frame>>, n: nat, noViz: bool) returns (queues: seq<seq<Frame>>, shown: seq<Call>, complete: bool)
    requires n <= |qs|
    ensures Popped(queues, shown, complete) == PopViews(qs, 0, n, noViz)
  {
    queues, shown := qs, [];
    for c := 0 to n
      invariant |queues| == |qs|
      invariant
        var rest := PopViews(queues, c, n, noViz);
        PopViews(qs, 0, n, noViz) == Popped(rest.queues, shown + rest.shown, rest.complete)
    {
      if queues[c] == [] {
        return queues, shown, false;
      }
      var frame := queues[c][0];
      var view := if noViz then [] else [UpdateView(c, frame)];
      ghost var rest := PopViews(queues[c := queues[c][1..]], c + 1, n, noViz);
      assert PopViews(queues, c, n, noViz) == Popped(rest.queues, view + rest.shown, rest.complete);
      assert shown + (view + rest.shown) == (shown + view) + rest.shown;
      queues := queues[c := queues[c][1..]];
      shown := shown + view;
    }
    complete := true;
  }
}
