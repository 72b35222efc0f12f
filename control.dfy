/**
 * The control layer of the recorder window (`BASLER_GUI`) with its widgets
 * reduced to the values it reads back: every handler as a function from the
 * window's state before to the state after. The recorder, the trigger
 * board, the socket and the filesystem are not modelled beyond what the
 * window reads from them; what it asks of them is appended to `calls`, and
 * what it sends to the remote peer to `sent`.
 */
module Control {
  import opened Wrappers
  import opened Settings
  import opened Files

  /** An image taken from a preview queue; its content plays no part here. */
  type Frame = nat

  /** Outbound messages of the remote protocol. */
  datatype Reply =
    | RespondRecording | RespondViewing | RespondCalib | RespondStop | RespondRecordingFail
    | StatusRecording | StatusViewing | StatusReady | StatusError
    | RespondCopy | RespondCopyFail

  /** What a start message carries; an absent or null `setting_file` or `frame_rate` is None. */
  datatype StartArgs = StartArgs(sessionId: string, settingFile: Option<string>, frameRate: Option<int>)

  /** Inbound messages, by their `type` field; any other type is Unrecognised. */
  datatype Message =
    | StartVideoRec(args: StartArgs)
    | StartVideoView(args: StartArgs)
    | StartVideoCalibrec(args: StartArgs)
    | StopVideo
    | PollStatus
    | Disconnected
    | CopyFiles(sessionPath: Option<string>)
    | PurgeFiles
    | Unrecognised(tag: string)
  {
    predicate IsStart()
    {
      StartVideoRec? || StartVideoView? || StartVideoCalibrec?
    }
  }

  /** What a timer calls when it fires. */
  datatype Slot =
    | StartRecordingSlot | StopCamsSlot | UpdateMultiViewSlot | CheckMessagesSlot
    | TriggerStartTriggerSlot | TriggerStartSlot

  /** A `QTimer` the window holds: its interval, whether it fires once, and what it calls. */
  datatype Timer = Timer(intervalMs: nat, singleShot: bool, slot: Slot)

  /** Calls into the recorder, the trigger board, the socket and the preview widgets. */
  datatype Call =
    | RunMultiCamRecord(filename: string, useHwTrigger: bool)
    | RunMultiCamShow(useHwTrigger: bool)
    | StopSingleCamShow
    | StopMultiCamRecord
    | StopMultiCamShow
    | StopTrigger
    | SetCamSettings(cam: nat, settings: CamSettings)
    | UpdateView(cam: nat, frame: Frame)
    | UpdateRecTimer
    | CloseSocket

  /**
   * What the window reads from and writes to the recorder: its status flags,
   * its cameras (user-defined names and the settings they hold), its video
   * writers, its per-camera preview queues, and the recording parameters.
   */
  datatype Recorder = Recorder(
    isRecording: bool, isViewing: bool, errorSet: bool, camsConnected: bool,
    camNames: seq<string>, camHw: seq<CamSettings>,
    writers: seq<Writer>, queues: seq<seq<Frame>>,
    fps: int, codec: string, crf: int, savePath: string)

  /** The recorder is acquiring, for a recording or for a preview. */
  predicate Busy(r: Recorder)
  {
    r.isRecording || r.isViewing
  }

  /** The trigger board: whether it is pulsing and the rate it was given. */
  datatype Trigger = Trigger(isPulsing: bool, fps: int)

  /**
   * Fixed for the window's lifetime: the widgets' limits, whether remote
   * control is enabled (a socket exists), the calibration wait and duration,
   * and the name of the video sub-folder.
   */
  datatype Config = Config(limits: Limits, hasSocket: bool, calibWait: nat, calibDuration: nat, videoFolder: string)

  /** The window's own attributes (`self.session_id`, `self.is_remote_ctr`, ...). */
  datatype Attrs = Attrs(
    sessionId: string,
    sessionPath: Option<string>,
    filesCopied: bool,
    timerUpdateCounter: int,
    stopEvent: Option<bool>,
    numberCams: nat,
    isRemoteCtr: bool)

  /** The `QTimer`s the window holds; None where the attribute is None or the timer was stopped. */
  datatype Timers = Timers(
    calibStartTimer: Option<Timer>,
    calibStopTimer: Option<Timer>,
    triggerTimer: Option<Timer>,
    triggerStopTimer: Option<Timer>,
    multiViewTimer: Option<Timer>,
    singleViewTimer: Option<Timer>,
    remoteTimer: Option<Timer>)

  /** The values the window's widgets show: spin boxes, codec box, check boxes, line edit. */
  datatype Widgets = Widgets(
    frameRate: int,
    codec: string,
    crf: int,
    hwTrig: bool,
    sessionIdText: string,
    disableViz: bool,
    camSpins: seq<CamSettings>)

  /** The window: its attributes, timers and widget values, and the collaborators it drives. */
  datatype State = State(
    cfg: Config,
    attrs: Attrs,
    timers: Timers,
    widgets: Widgets,
    rec: Recorder,
    trigger: Option<Trigger>,
    fs: Fs,
    sent: seq<Reply>,
    calls: seq<Call>)

  function GeneralOf(s: State): General
  {
    General(s.widgets.hwTrig, s.widgets.crf, s.widgets.codec, s.widgets.frameRate, s.rec.savePath)
  }

  function WithGeneral(s: State, g: General): State
  {
    s.(widgets := s.widgets.(hwTrig := g.hwTrig, crf := g.crf, codec := g.codec, frameRate := g.fps),
       rec := s.rec.(savePath := g.savePath))
  }

  /**
   * What holds between any two handlers: remote mode and the message-poll
   * timer come and go together, the duration counter stays below 20, the
   * widgets hold values in their ranges, there is one spin-box set and one
   * preview queue per camera, and at most that many cameras are polled.
   */
  ghost predicate Invariant(s: State)
  {
    && ValidLimits(s.cfg.limits)
    && (s.attrs.isRemoteCtr <==> s.timers.remoteTimer.Some?)
    && (s.timers.remoteTimer.Some? ==> s.timers.remoteTimer.value.slot == CheckMessagesSlot)
    && 0 <= s.attrs.timerUpdateCounter < 20
    && InRange(GeneralOf(s), s.cfg.limits)
    && |s.widgets.camSpins| == |s.rec.camNames| == |s.rec.camHw| == |s.rec.queues|
    && s.attrs.numberCams <= |s.rec.camNames|
  }

  /** The window as `__init__` leaves it, given what the designer file and the recorder provide. */
  function Initial(cfg: Config, rec: Recorder, trigger: Option<Trigger>, fs: Fs,
                   frameRate: int, codec: string, crf: int, hwTrig: bool, disableViz: bool,
                   camSpins: seq<CamSettings>): State
  {
    State(cfg,
          Attrs("test_sess", None, false, 0, None, 0, false),
          Timers(None, None, None, None, None, None, None),
          Widgets(frameRate, codec, crf, hwTrig, "", disableViz, camSpins),
          rec, trigger, fs, [], [])
  }

  lemma InitialInvariant(cfg: Config, rec: Recorder, trigger: Option<Trigger>, fs: Fs,
                         frameRate: int, codec: string, crf: int, hwTrig: bool, disableViz: bool,
                         camSpins: seq<CamSettings>)
    requires ValidLimits(cfg.limits) && InRange(General(hwTrig, crf, codec, frameRate, rec.savePath), cfg.limits)
    requires |camSpins| == |rec.camNames| == |rec.camHw| == |rec.queues|
    ensures var s := Initial(cfg, rec, trigger, fs, frameRate, codec, crf, hwTrig, disableViz, camSpins);
      Invariant(s) && !s.attrs.isRemoteCtr && s.sent == [] && s.calls == [] && !s.attrs.filesCopied
  {
  }

  // ---------------------------------------------------------------- start

  /**
   * `start_recording`: clears the copied flag, makes a new stop event, takes
   * the session id from its line edit unless that is empty, hands frame rate,
   * codec and crf to the recorder, starts the multi-camera recording and a
   * 5 ms preview poll, and with a trigger board and the HW-trigger box
   * checked arms a 500 ms single-shot `start_trigger`.
   */
  function StartRecording(s: State): State
  {
    var sid := if s.widgets.sessionIdText != "" then s.widgets.sessionIdText else s.attrs.sessionId;
    var arm := s.trigger.Some? && s.widgets.hwTrig;
    s.(attrs := s.attrs.(filesCopied := false, stopEvent := Some(false), sessionId := sid,
                         numberCams := |s.rec.camNames|),
       rec := s.rec.(fps := s.widgets.frameRate, codec := s.widgets.codec, crf := s.widgets.crf),
       calls := s.calls + [RunMultiCamRecord(sid, s.widgets.hwTrig)],
       timers := s.timers.(multiViewTimer := Some(Timer(5, false, UpdateMultiViewSlot)),
                           triggerTimer := if arm then Some(Timer(500, true, TriggerStartTriggerSlot))
                                           else s.timers.triggerTimer),
       trigger := if arm then Some(s.trigger.value.(fps := s.widgets.frameRate)) else s.trigger)
  }

  /** `int(1000 // (fps * 1.2))`, the preview poll interval while viewing, in whole milliseconds. */
  function ShowInterval(fps: int): nat
    requires fps >= 1
  {
    5000 / (6 * fps)
  }

  /**
   * `show_multiple_cam`: a new stop event, the frame rate to the recorder,
   * the multi-camera preview and its poll timer, and with a trigger board and
   * the HW-trigger box checked a 500 ms single-shot `trigger.start`.
   */
  function ShowMultipleCam(s: State): State
    requires s.widgets.frameRate >= 1
  {
    var arm := s.trigger.Some? && s.widgets.hwTrig;
    s.(attrs := s.attrs.(stopEvent := Some(false), numberCams := |s.rec.camNames|),
       rec := s.rec.(fps := s.widgets.frameRate),
       calls := s.calls + [RunMultiCamShow(s.widgets.hwTrig)],
       timers := s.timers.(multiViewTimer := Some(Timer(ShowInterval(s.widgets.frameRate), false, UpdateMultiViewSlot)),
                           triggerTimer := if arm then Some(Timer(500, true, TriggerStartSlot))
                                           else s.timers.triggerTimer),
       trigger := if arm then Some(s.trigger.value.(fps := s.widgets.frameRate)) else s.trigger)
  }

  /**
   * `start_recording_calib`: checks the HW-trigger box and only arms two
   * single-shot timers, one that starts the recording after the calibration
   * wait and one that stops it after wait plus duration.
   */
  function StartRecordingCalib(s: State): State
  {
    s.(widgets := s.widgets.(hwTrig := true),
       timers := s.timers.(calibStartTimer := Some(Timer(s.cfg.calibWait, true, StartRecordingSlot)),
                           calibStopTimer := Some(Timer(s.cfg.calibDuration + s.cfg.calibWait, true, StopCamsSlot))))
  }

  // ---------------------------------------------------------------- stop

  /** The case in which `stop_cams` only stops the trigger and tries again later. */
  predicate Deferring(s: State)
  {
    s.trigger.Some? && s.widgets.hwTrig && s.trigger.value.isPulsing
  }

  /**
   * `stop_cams`: while the trigger board is pulsing (and the HW-trigger box is
   * checked) it asks the board to stop and re-runs itself after 500 ms.
   * Otherwise it sets the stop event, drops the calibration timers, stops the
   * single-camera preview if one runs, and stops the multi-camera poll and
   * then the recording or, when not recording, the preview.
   */
  function StopCams(s: State): State
  {
    if Deferring(s) then
      s.(calls := s.calls + [StopTrigger], timers := s.timers.(triggerStopTimer := Some(Timer(500, true, StopCamsSlot))))
    else
      s.(attrs := s.attrs.(stopEvent := if s.attrs.stopEvent.Some? then Some(true) else None),
         timers := s.timers.(calibStartTimer := None, calibStopTimer := None,
                             singleViewTimer := None, multiViewTimer := None),
         calls := s.calls + TeardownCalls(s))
  }

  /** The stops `stop_cams` asks of the recorder: one per preview poll that is running, single-camera first. */
  function TeardownCalls(s: State): seq<Call>
  {
    (if s.timers.singleViewTimer.Some? then [StopSingleCamShow] else [])
    + (if s.timers.multiViewTimer.Some? then [if s.rec.isRecording then StopMultiCamRecord else StopMultiCamShow] else [])
  }

  // ---------------------------------------------------------------- remote mode

  /** `enter_remote_mode`: a 500 ms message poll, remote mode on, and an unsolicited `status_ready`. */
  function EnterRemoteMode(s: State): State
  {
    s.(timers := s.timers.(remoteTimer := Some(Timer(500, false, CheckMessagesSlot))),
       attrs := s.attrs.(isRemoteCtr := true),
       sent := s.sent + [StatusReady])
  }

  /** `exit_remote_mode`: closes the socket, drops the poll, leaves remote mode and clears the session-id line edit. */
  function ExitRemoteMode(s: State): State
  {
    s.(calls := s.calls + [CloseSocket], timers := s.timers.(remoteTimer := None),
       attrs := s.attrs.(isRemoteCtr := false), widgets := s.widgets.(sessionIdText := ""))
  }

  // ---------------------------------------------------------------- settings

  /** The spin boxes after `load_settings`: a camera whose name has an entry shows it, the others keep theirs. */
  function LoadedSpins(names: seq<string>, spins: seq<CamSettings>, cams: map<string, CamSettings>): (r: seq<CamSettings>)
    requires |names| == |spins|
    ensures |r| == |spins|
  {
    seq(|spins|, i requires 0 <= i < |spins| => if names[i] in cams then cams[names[i]] else spins[i])
  }

  /** The `set_cam_settings` calls `load_settings` makes, in camera order, from camera `c` on. */
  function CamCalls(names: seq<string>, cams: map<string, CamSettings>, c: nat): seq<Call>
    decreases |names| - c
  {
    if c >= |names| then []
    else (if names[c] in cams then [SetCamSettings(c, cams[names[c]])] else []) + CamCalls(names, cams, c + 1)
  }

  /** Only the settings widgets, the recorder's save path and the call log differ. */
  predicate SettingsOnlyChanged(s: State, t: State)
  {
    t == s.(widgets := s.widgets.(hwTrig := t.widgets.hwTrig, crf := t.widgets.crf, codec := t.widgets.codec,
                                  frameRate := t.widgets.frameRate, camSpins := t.widgets.camSpins),
            rec := s.rec.(savePath := t.rec.savePath), calls := t.calls)
  }

  /**
   * `load_settings(file)`: nothing without connected cameras; an empty name
   * opens a file dialog, and a cancelled dialog does nothing. A missing file
   * raises FileNotFoundError (None here). Otherwise every camera with an
   * entry gets it, then the general keys are applied in order.
   */
  function LoadSettings(s: State, file: string, d: Dialogs): (r: Option<State>)
    requires Invariant(s)
    ensures r.Some? ==> SettingsOnlyChanged(s, r.value) && Invariant(r.value)
  {
    if !s.rec.camsConnected then Some(s)
    else
      var f := if file == "" then d.openFile else file;
      if f == "" then Some(s)
      else if f !in s.fs.docs then None
      else
        var doc := s.fs.docs[f];
        var s1 := s.(widgets := s.widgets.(camSpins := LoadedSpins(s.rec.camNames, s.widgets.camSpins, doc.cams)),
                     calls := s.calls + CamCalls(s.rec.camNames, doc.cams, 0));
        LoadGeneralInRange(GeneralOf(s1), doc, s.cfg.limits, d.directory);
        Some(WithGeneral(s1, LoadGeneral(GeneralOf(s1), doc, s.cfg.limits, d.directory)))
  }

  /**
   * `save_settings`: nothing without connected cameras or when the save
   * dialog is cancelled; otherwise the cameras' settings and the general
   * values are written under the dialog's name, completed by the suffix rule.
   */
  function SaveSettings(s: State, d: Dialogs): State
    requires Invariant(s)
  {
    if !s.rec.camsConnected || d.saveFile == "" then s
    else
      var name := SettingsFileName(d.saveFile);
      var doc := SaveDoc(CamLib(s.rec.camNames, s.rec.camHw), GeneralOf(s));
      s.(fs := s.fs.(files := s.fs.files + {name}, docs := s.fs.docs[name := doc]))
  }

  // ---------------------------------------------------------------- files

  /**
   * `copy_recorded_file`: only when not recording and not yet copied; copies
   * the finished writers' files; the first error answers `respond_copy_fail`
   * and ends it, otherwise the files count as copied and `respond_copy` is sent.
   */
  function CopyRecordedFile(s: State): State
    requires s.attrs.sessionPath.Some?
  {
    if s.rec.isRecording || s.attrs.filesCopied then s
    else
      var r := CopyWriters(s.rec.writers, Dest(s.attrs.sessionPath.value, s.attrs.sessionId, s.cfg.videoFolder), s.fs);
      if r.failed then s.(fs := r.fs, sent := s.sent + [RespondCopyFail])
      else s.(fs := r.fs, attrs := s.attrs.(filesCopied := true), sent := s.sent + [RespondCopy])
  }

  /** `purge_recorded_file`: deletes the finished writers' files and answers nothing. */
  function PurgeRecordedFile(s: State): State
  {
    s.(fs := PurgeWriters(s.rec.writers, s.fs).fs)
  }

  // ---------------------------------------------------------------- dispatcher

  /** Python truthiness of a present `frame_rate`. */
  predicate Truthy(v: Option<int>)
  {
    v.Some? && v.value != 0
  }

  /**
   * The `setting_file` step of a start message: a present, non-empty name is
   * loaded; FileNotFoundError and a missing key are caught and ignored.
   */
  function LoadRequested(s: State, settingFile: Option<string>, d: Dialogs): (r: State)
    requires Invariant(s)
    ensures SettingsOnlyChanged(s, r) && Invariant(r)
  {
    if settingFile.None? || settingFile.value == "" then s
    else
      match LoadSettings(s, settingFile.value, d)
      case None => s
      case Some(t) => t
  }

  /** The answer a start message gets when it is accepted. */
  function Ack(m: Message): Reply
    requires m.IsStart()
  {
    match m
    case StartVideoRec(_) => RespondRecording
    case StartVideoView(_) => RespondViewing
    case StartVideoCalibrec(_) => RespondCalib
  }

  /**
   * What an accepted start message does before starting: load the requested
   * settings, take its session id, take its frame rate when present and
   * non-zero, and poll for messages only every 5000 ms.
   */
  function PrepareStart(s: State, args: StartArgs, d: Dialogs): (r: State)
    requires Invariant(s) && s.attrs.isRemoteCtr
    ensures Invariant(r) && r.attrs.isRemoteCtr
  {
    var s1 := LoadRequested(s, args.settingFile, d);
    var fr := args.frameRate;
    s1.(attrs := s1.attrs.(sessionId := args.sessionId),
        widgets := s1.widgets.(sessionIdText := args.sessionId,
                               frameRate := if Truthy(fr) then Clamp(fr.value, s.cfg.limits.fpsMin, s.cfg.limits.fpsMax)
                                            else s1.widgets.frameRate),
        timers := s1.timers.(remoteTimer := Some(s1.timers.remoteTimer.value.(intervalMs := 5000))))
  }

  /** An accepted start message: prepare, start what it asks for, and acknowledge. */
  function AcceptStart(s: State, m: Message, d: Dialogs): State
    requires Invariant(s) && s.attrs.isRemoteCtr && m.IsStart()
  {
    var s2 := PrepareStart(s, m.args, d);
    var t := if m.StartVideoRec? then StartRecording(s2)
             else if m.StartVideoView? then ShowMultipleCam(s2)
             else StartRecordingCalib(s2);
    t.(sent := t.sent + [Ack(m)])
  }

  /**
   * `check_and_parse_messages`, run by the message-poll timer (so in remote
   * mode), for the message read from the socket (None when there is none).
   */
  function Dispatch(s: State, msg: Option<Message>, d: Dialogs): State
    requires Invariant(s) && s.attrs.isRemoteCtr
  {
    match msg
    case None => s
    case Some(m) =>
      if m.IsStart() then
        if Busy(s.rec) then s.(sent := s.sent + [StatusError])
        else AcceptStart(s, m, d)
      else
        match m
        case StopVideo =>
          var t := StopCams(s);
          t.(timers := t.timers.(remoteTimer := Some(t.timers.remoteTimer.value.(intervalMs := 500))),
             sent := t.sent + [RespondStop])
        case PollStatus =>
          var r := if s.rec.isRecording then StatusRecording
                   else if s.rec.isViewing then StatusViewing
                   else if s.attrs.isRemoteCtr then StatusReady
                   else StatusError;
          s.(sent := s.sent + [r])
        case Disconnected => ExitRemoteMode(s)
        case CopyFiles(p) =>
          var s1 := s.(attrs := s.attrs.(sessionPath := p));
          if p.Some? && p.value != "" then CopyRecordedFile(s1) else s1
        case PurgeFiles => PurgeRecordedFile(s)
        case Unrecognised(_) => s
  }

  // ---------------------------------------------------------------- preview tick

  /** Result of popping the preview queues: the queues, the views updated, and whether every camera had a frame. */
  datatype Popped = Popped(queues: seq<seq<Frame>>, shown: seq<Call>, complete: bool)

  /**
   * Cameras `c` to `n - 1` in order: take one frame from each queue and show
   * it (unless visualisation is disabled); the first empty queue ends the tick.
   */
  function PopViews(qs: seq<seq<Frame>>, c: nat, n: nat, noViz: bool): (r: Popped)
    requires n <= |qs|
    ensures |r.queues| == |qs|
    decreases n - c
  {
    if c >= n then Popped(qs, [], true)
    else if qs[c] == [] then Popped(qs, [], false)
    else
      var popped := qs[c := qs[c][1..]];
      var rest := PopViews(popped, c + 1, n, noViz);
      var view := if noViz then [] else [UpdateView(c, qs[c][0])];
      Popped(rest.queues, view + rest.shown, rest.complete)
  }

  /**
   * `update_multi_view`, one firing of the preview poll: on a recorder error
   * it stops and reports `respond_recording_fail`; otherwise it counts the
   * tick (the duration label every 20th), pops the queues, and when all had a
   * frame but the recorder is neither recording nor viewing it reports
   * `respond_recording_fail`.
   */
  function Tick(s: State): State
    requires Invariant(s)
  {
    if s.rec.errorSet then
      var t := StopCams(s);
      t.(sent := t.sent + (if s.cfg.hasSocket then [RespondRecordingFail] else []))
    else
      var wrap := s.attrs.timerUpdateCounter + 1 >= 20;
      var p := PopViews(s.rec.queues, 0, s.attrs.numberCams, s.widgets.disableViz);
      s.(attrs := s.attrs.(timerUpdateCounter := if wrap then 0 else s.attrs.timerUpdateCounter + 1),
         calls := s.calls + (if wrap then [UpdateRecTimer] else []) + p.shown,
         rec := s.rec.(queues := p.queues),
         sent := s.sent + (if p.complete && !Busy(s.rec) && s.cfg.hasSocket then [RespondRecordingFail] else []))
  }
}
