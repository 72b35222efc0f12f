/**
 * What the control layer guarantees: how the remote dispatcher answers each
 * message, how stopping, the preview poll and the file operations behave,
 * that settings survive a save and a load, and that every handler keeps the
 * window's invariant.
 */
module ControlProperties {
  import opened Wrappers
  import opened Text
  import opened Settings
  import opened Files
  import opened Control

  // ---------------------------------------------------------------- remote dispatcher

  /** A start message while the recorder is busy is answered with `status_error` and changes nothing else. */
  lemma BusyStartIsRejected(s: State, m: Message, d: Dialogs)
    requires Invariant(s) && s.attrs.isRemoteCtr && m.IsStart() && Busy(s.rec)
    ensures Dispatch(s, Some(m), d) == s.(sent := s.sent + [StatusError])
  {
  }

  /**
   * An accepted start message: the session id is the message's, the message
   * poll slows to 5000 ms, a message frame rate that is present and non-zero
   * wins over the settings file (clamped to the spin box), exactly the
   * matching acknowledgement is sent, and the matching acquisition is asked
   * for. Calibration only arms its two timers: nothing is started yet.
   */
  lemma AcceptedStart(s: State, m: Message, d: Dialogs)
    requires Invariant(s) && s.attrs.isRemoteCtr && m.IsStart() && !Busy(s.rec)
    ensures
      var t := Dispatch(s, Some(m), d);
      var l := LoadRequested(s, m.args.settingFile, d);
      var fr := m.args.frameRate;
      && t.attrs.sessionId == m.args.sessionId
      && t.widgets.sessionIdText == m.args.sessionId
      && t.attrs.isRemoteCtr
      && t.timers.remoteTimer == Some(Timer(5000, s.timers.remoteTimer.value.singleShot, CheckMessagesSlot))
      && t.sent == s.sent + [Ack(m)]
      && t.widgets.frameRate == (if Truthy(fr) then Clamp(fr.value, s.cfg.limits.fpsMin, s.cfg.limits.fpsMax) else l.widgets.frameRate)
      && t.rec.isRecording == s.rec.isRecording && t.rec.isViewing == s.rec.isViewing
      && (m.StartVideoRec? ==>
            && t.calls == l.calls + [RunMultiCamRecord(m.args.sessionId, l.widgets.hwTrig)]
            && !t.attrs.filesCopied && t.attrs.stopEvent == Some(false)
            && t.timers.multiViewTimer == Some(Timer(5, false, UpdateMultiViewSlot)))
      && (m.StartVideoView? ==>
            && t.calls == l.calls + [RunMultiCamShow(l.widgets.hwTrig)]
            && t.attrs.stopEvent == Some(false)
            && t.timers.multiViewTimer == Some(Timer(ShowInterval(t.widgets.frameRate), false, UpdateMultiViewSlot)))
      && (m.StartVideoCalibrec? ==>
            && t.calls == l.calls && t.widgets.hwTrig
            && t.timers.multiViewTimer == s.timers.multiViewTimer && t.attrs.stopEvent == s.attrs.stopEvent
            && t.timers.calibStartTimer == Some(Timer(s.cfg.calibWait, true, StartRecordingSlot))
            && t.timers.calibStopTimer == Some(Timer(s.cfg.calibDuration + s.cfg.calibWait, true, StopCamsSlot)))
  {
  }

  /**
   * The settings-file step of a start message never blocks the start: when
   * the name is absent or empty, the cameras are not connected, or the file
   * does not exist, the window is left as it was; otherwise the file's
   * camera entries and general keys are applied.
   */
  lemma StartSettingFile(s: State, settingFile: Option<string>, d: Dialogs)
    requires Invariant(s)
    ensures
      var l := LoadRequested(s, settingFile, d);
      && ((settingFile.None? || settingFile.value == "" || !s.rec.camsConnected || settingFile.value !in s.fs.docs)
          ==> l == s)
      && (settingFile.Some? && settingFile.value != "" && s.rec.camsConnected && settingFile.value in s.fs.docs ==>
            var doc := s.fs.docs[settingFile.value];
            && l.widgets.camSpins == LoadedSpins(s.rec.camNames, s.widgets.camSpins, doc.cams)
            && GeneralOf(l) == LoadGeneral(GeneralOf(s), doc, s.cfg.limits, d.directory))
  {
  }

  /**
   * A calibration start asks nothing of the recorder: the only calls it makes
   * are the settings file's `set_cam_settings`. The recorder therefore stays
   * idle, and a second start message arriving before the calibration timer
   * fires is accepted as well.
   */
  lemma CalibDoesNotBlockNextStart(s: State, m: Message, d: Dialogs, m2: Message, d2: Dialogs)
    requires Invariant(s) && s.attrs.isRemoteCtr && m.StartVideoCalibrec? && !Busy(s.rec) && m2.IsStart()
    ensures
      var t := Dispatch(s, Some(m), d);
      && s.calls <= t.calls
      && (forall c :: c in t.calls[|s.calls|..] ==> c.SetCamSettings?)
      && Invariant(t) && t.attrs.isRemoteCtr && !Busy(t.rec)
      && Dispatch(t, Some(m2), d2).sent == t.sent + [Ack(m2)]
  {
    DispatchKeepsInvariant(s, Some(m), d);
    var t := Dispatch(s, Some(m), d);
    AcceptedStart(s, m, d);
    LoadRequestedCalls(s, m.args.settingFile, d);
    AcceptedStart(t, m2, d2);
  }

  /** The settings-file step only adds `set_cam_settings` calls to the log. */
  lemma LoadRequestedCalls(s: State, settingFile: Option<string>, d: Dialogs)
    requires Invariant(s)
    ensures var l := LoadRequested(s, settingFile, d);
      && s.calls <= l.calls
      && forall c :: c in l.calls[|s.calls|..] ==> c.SetCamSettings?
  {
    var l := LoadRequested(s, settingFile, d);
    if l.calls != s.calls {
      var doc := s.fs.docs[if settingFile.value == "" then d.openFile else settingFile.value];
      CamCallsOnlySettings(s.rec.camNames, doc.cams, 0);
      assert l.calls[|s.calls|..] == CamCalls(s.rec.camNames, doc.cams, 0);
    }
  }

  /**
   * `poll_status` answers recording before viewing before ready and changes
   * nothing else; in remote mode it never answers `status_error`.
   */
  lemma PollStatusReply(s: State, d: Dialogs)
    requires Invariant(s) && s.attrs.isRemoteCtr
    ensures Dispatch(s, Some(PollStatus), d) ==
      s.(sent := s.sent + [if s.rec.isRecording then StatusRecording
                           else if s.rec.isViewing then StatusViewing
                           else StatusReady])
    ensures StatusError !in Dispatch(s, Some(PollStatus), d).sent[|s.sent|..]
  {
    var t := Dispatch(s, Some(PollStatus), d);
    assert t.sent[|s.sent|..] == [t.sent[|s.sent|]];
  }

  /** `stop_video` stops, restores the 500 ms message poll, and answers `respond_stop`. */
  lemma StopMessage(s: State, d: Dialogs)
    requires Invariant(s) && s.attrs.isRemoteCtr
    ensures
      var t := Dispatch(s, Some(StopVideo), d);
      var u := StopCams(s);
      t == u.(timers := u.timers.(remoteTimer := Some(Timer(500, s.timers.remoteTimer.value.singleShot, CheckMessagesSlot))),
              sent := s.sent + [RespondStop])
  {
  }

  /**
   * Every message gets at most one answer. Start, stop and poll messages get
   * exactly one; no message, `disconnected`, `purge_files` and unrecognised
   * types get none; `copy_files` gets one exactly when its path is non-empty
   * and the recorder is neither recording nor done copying.
   */
  lemma DispatchReplies(s: State, msg: Option<Message>, d: Dialogs)
    requires Invariant(s) && s.attrs.isRemoteCtr
    ensures
      var t := Dispatch(s, msg, d);
      && s.sent <= t.sent && |t.sent| <= |s.sent| + 1
      && (msg.Some? && (msg.value.IsStart() || msg.value.StopVideo? || msg.value.PollStatus?) ==> |t.sent| == |s.sent| + 1)
      && (msg.None? || msg.value.Disconnected? || msg.value.PurgeFiles? || msg.value.Unrecognised? ==> t.sent == s.sent)
      && (msg.Some? && msg.value.CopyFiles? ==>
            var p := msg.value.sessionPath;
            (|t.sent| == |s.sent| + 1 <==> p.Some? && p.value != "" && !s.rec.isRecording && !s.attrs.filesCopied))
  {
    if msg.Some? && msg.value.IsStart() && !Busy(s.rec) {
      AcceptedStart(s, msg.value, d);
    }
  }

  /** `copy_files` records the session path it carries, and copies only when that path is non-empty. */
  lemma CopyFilesMessage(s: State, p: Option<string>, d: Dialogs)
    requires Invariant(s) && s.attrs.isRemoteCtr
    ensures
      var t := Dispatch(s, Some(CopyFiles(p)), d);
      && t.attrs.sessionPath == p
      && (p.None? || p.value == "" ==> t == s.(attrs := s.attrs.(sessionPath := p)))
      && (p.Some? && p.value != "" ==> t == CopyRecordedFile(s.(attrs := s.attrs.(sessionPath := p))))
  {
  }

  /** `purge_files` answers nothing; it deletes finished files and changes nothing else. */
  lemma PurgeFilesMessage(s: State, d: Dialogs)
    requires Invariant(s) && s.attrs.isRemoteCtr
    ensures
      var t := Dispatch(s, Some(PurgeFiles), d);
      && t == s.(fs := t.fs)
      && t.fs.dirs == s.fs.dirs
      && s.fs.files - StoppedPaths(s.rec.writers) <= t.fs.files <= s.fs.files
  {
    PurgeWritersEffect(s.rec.writers, s.fs);
  }

  /** Remote mode ends exactly on `disconnected`, and every message keeps the invariant. */
  lemma DispatchKeepsInvariant(s: State, msg: Option<Message>, d: Dialogs)
    requires Invariant(s) && s.attrs.isRemoteCtr
    ensures Invariant(Dispatch(s, msg, d))
    ensures Dispatch(s, msg, d).attrs.isRemoteCtr <==> msg != Some(Disconnected)
  {
    if msg.Some? {
      var m := msg.value;
      if m.IsStart() {
        StartMessageKeepsInvariant(s, m, d);
      } else if m.StopVideo? {
        StopMessageKeepsInvariant(s, d);
      } else if m.CopyFiles? || m.PurgeFiles? {
        FileMessageKeepsInvariant(s, m, d);
      }
    }
  }

  lemma StartMessageKeepsInvariant(s: State, m: Message, d: Dialogs)
    requires Invariant(s) && s.attrs.isRemoteCtr && m.IsStart()
    ensures Invariant(Dispatch(s, Some(m), d)) && Dispatch(s, Some(m), d).attrs.isRemoteCtr
  {
    if !Busy(s.rec) {
      AcceptStartKeepsInvariant(s, m, d);
    }
  }

  lemma StopMessageKeepsInvariant(s: State, d: Dialogs)
    requires Invariant(s) && s.attrs.isRemoteCtr
    ensures Invariant(Dispatch(s, Some(StopVideo), d)) && Dispatch(s, Some(StopVideo), d).attrs.isRemoteCtr
  {
    StopCamsKeepsInvariant(s);
  }

  lemma FileMessageKeepsInvariant(s: State, m: Message, d: Dialogs)
    requires Invariant(s) && s.attrs.isRemoteCtr && (m.CopyFiles? || m.PurgeFiles?)
    ensures Invariant(Dispatch(s, Some(m), d)) && Dispatch(s, Some(m), d).attrs.isRemoteCtr
  {
    if m.CopyFiles? {
      FileHandlersKeepInvariant(s.(attrs := s.attrs.(sessionPath := m.sessionPath)));
    } else {
      FileHandlersKeepInvariant(s);
    }
  }

  lemma AcceptStartKeepsInvariant(s: State, m: Message, d: Dialogs)
    requires Invariant(s) && s.attrs.isRemoteCtr && m.IsStart()
    ensures Invariant(AcceptStart(s, m, d)) && AcceptStart(s, m, d).attrs.isRemoteCtr
  {
    StartsKeepInvariant(PrepareStart(s, m.args, d));
  }

  // ---------------------------------------------------------------- remote mode

  /**
   * Entering remote mode establishes the invariant with a 500 ms message poll
   * and announces `status_ready`; leaving it closes the socket, and the pair
   * leaves remote mode off with exactly those two effects logged.
   */
  lemma EnterThenExit(s: State)
    requires Invariant(s)
    ensures var e := EnterRemoteMode(s);
      && Invariant(e) && e.attrs.isRemoteCtr && e.timers.remoteTimer == Some(Timer(500, false, CheckMessagesSlot))
      && e.sent == s.sent + [StatusReady]
    ensures var x := ExitRemoteMode(EnterRemoteMode(s));
      && Invariant(x) && !x.attrs.isRemoteCtr && x.timers.remoteTimer.None? && x.widgets.sessionIdText == ""
      && x.sent == s.sent + [StatusReady] && x.calls == s.calls + [CloseSocket]
  {
  }

  // ---------------------------------------------------------------- stopping

  /** `stop_cams` applied `n` times in a row, as its own 500 ms timer does while the trigger pulses. */
  function StopCamsTimes(s: State, n: nat): State
    decreases n
  {
    if n == 0 then s else StopCamsTimes(StopCams(s), n - 1)
  }

  /**
   * While the trigger board keeps pulsing, `stop_cams` tears nothing down: any
   * number of attempts only asks the board to stop once per attempt and
   * re-arms the 500 ms retry.
   */
  lemma {:induction false} StopCamsWhilePulsing(s: State, n: nat)
    requires Deferring(s)
    ensures StopCamsTimes(s, n) ==
      if n == 0 then s
      else s.(calls := s.calls + seq(n, _ => StopTrigger),
              timers := s.timers.(triggerStopTimer := Some(Timer(500, true, StopCamsSlot))))
    decreases n
  {
    if n > 0 {
      var u := StopCams(s);
      assert Deferring(u);
      StopCamsWhilePulsing(u, n - 1);
      if n > 1 {
        assert u.calls + seq(n - 1, _ => StopTrigger) == s.calls + seq(n, _ => StopTrigger);
      }
    }
  }

  /**
   * Once the trigger is not pulsing (or not in use), `stop_cams` sets the stop
   * event, drops both calibration timers and both preview polls, asks the
   * recorder to stop each acquisition that had a poll (the recording when it
   * is recording, else the preview), and changes nothing else.
   */
  lemma StopCamsTeardown(s: State)
    requires !Deferring(s)
    ensures
      var t := StopCams(s);
      && t.attrs.stopEvent == (if s.attrs.stopEvent.Some? then Some(true) else None)
      && t.timers.calibStartTimer.None? && t.timers.calibStopTimer.None?
      && t.timers.singleViewTimer.None? && t.timers.multiViewTimer.None?
      && t.calls == s.calls
                    + (if s.timers.singleViewTimer.Some? then [StopSingleCamShow] else [])
                    + (if s.timers.multiViewTimer.Some? then [if s.rec.isRecording then StopMultiCamRecord else StopMultiCamShow] else [])
      && t == s.(attrs := s.attrs.(stopEvent := t.attrs.stopEvent),
                 timers := s.timers.(calibStartTimer := None, calibStopTimer := None,
                                     singleViewTimer := None, multiViewTimer := None),
                 calls := t.calls)
  {
  }

  /** A second `stop_cams` after a completed one does nothing. */
  lemma StopCamsIdempotent(s: State)
    requires !Deferring(s)
    ensures StopCams(StopCams(s)) == StopCams(s)
  {
  }

  // ---------------------------------------------------------------- starting

  /**
   * A recording start clears the copied flag, so its files can be copied
   * once; a preview start leaves it, so files already copied are not copied
   * again. Both poll every camera.
   */
  lemma StartRearmsCopy(s: State)
    requires s.widgets.frameRate >= 1
    ensures !StartRecording(s).attrs.filesCopied && StartRecording(s).attrs.numberCams == |s.rec.camNames|
    ensures ShowMultipleCam(s).attrs.filesCopied == s.attrs.filesCopied && ShowMultipleCam(s).attrs.numberCams == |s.rec.camNames|
  {
  }

  /**
   * The preview poll while viewing runs at least as often as frames arrive
   * (at most `1000/fps` ms apart), and at a positive interval whenever the
   * frame rate is at most 833.
   */
  lemma ShowIntervalBounds(fps: int)
    requires fps >= 1
    ensures ShowInterval(fps) * fps <= 1000
    ensures fps <= 833 ==> ShowInterval(fps) >= 1
  {
  }

  /**
   * With a trigger board and the HW-trigger box checked, both starts hand the
   * frame rate to the board and arm its start 500 ms later; without either,
   * the board and its timer are untouched.
   */
  lemma StartArmsTrigger(s: State)
    requires s.widgets.frameRate >= 1
    ensures var r := StartRecording(s); var v := ShowMultipleCam(s);
      if s.trigger.Some? && s.widgets.hwTrig then
        && r.trigger == Some(s.trigger.value.(fps := s.widgets.frameRate)) && r.timers.triggerTimer == Some(Timer(500, true, TriggerStartTriggerSlot))
        && v.trigger == Some(s.trigger.value.(fps := s.widgets.frameRate)) && v.timers.triggerTimer == Some(Timer(500, true, TriggerStartSlot))
      else
        r.trigger == s.trigger && r.timers.triggerTimer == s.timers.triggerTimer && v.trigger == s.trigger && v.timers.triggerTimer == s.timers.triggerTimer
  {
  }

  // ---------------------------------------------------------------- preview tick

  /** The first camera from `c` on (below `n`) whose queue is empty, or `n` when none is. */
  function FirstEmpty(qs: seq<seq<Frame>>, c: nat, n: nat): (k: nat)
    requires c <= n <= |qs|
    ensures c <= k <= n
    ensures forall i :: c <= i < k ==> qs[i] != []
    ensures k < n ==> qs[k] == []
    decreases n - c
  {
    if c == n then n else if qs[c] == [] then c else FirstEmpty(qs, c + 1, n)
  }

  lemma {:induction false} FirstEmptyAgree(qs1: seq<seq<Frame>>, qs2: seq<seq<Frame>>, c: nat, n: nat)
    requires c <= n <= |qs1| == |qs2|
    requires forall i :: c <= i < n ==> qs1[i] == qs2[i]
    ensures FirstEmpty(qs1, c, n) == FirstEmpty(qs2, c, n)
    decreases n - c
  {
    if c < n {
      FirstEmptyAgree(qs1, qs2, c + 1, n);
    }
  }

  /**
   * One tick pops exactly the cameras before the first empty queue: each of
   * them loses its oldest frame, which is shown in camera order (nothing is
   * shown with visualisation disabled); all other queues are untouched, and
   * the tick is complete exactly when no polled queue was empty.
   */
  lemma PopViewsEffect(qs: seq<seq<Frame>>, c: nat, n: nat, noViz: bool)
    requires c <= n <= |qs|
    ensures
      var r := PopViews(qs, c, n, noViz);
      var k := FirstEmpty(qs, c, n);
      && (r.complete <==> k == n)
      && (forall i :: 0 <= i < |qs| ==> r.queues[i] == if c <= i < k then qs[i][1..] else qs[i])
      && |r.shown| == (if noViz then 0 else k - c)
      && (!noViz ==> forall j :: 0 <= j < k - c ==> r.shown[j] == UpdateView(c + j, qs[c + j][0]))
  {
    PopViewsQueues(qs, c, n, noViz);
    PopViewsShown(qs, c, n, noViz);
  }

  lemma {:induction false} PopViewsQueues(qs: seq<seq<Frame>>, c: nat, n: nat, noViz: bool)
    requires c <= n <= |qs|
    ensures
      var r := PopViews(qs, c, n, noViz);
      var k := FirstEmpty(qs, c, n);
      && (r.complete <==> k == n)
      && (forall i :: 0 <= i < |qs| ==> r.queues[i] == if c <= i < k then qs[i][1..] else qs[i])
    decreases n - c
  {
    if c < n && qs[c] != [] {
      var popped := qs[c := qs[c][1..]];
      FirstEmptyAgree(popped, qs, c + 1, n);
      PopViewsQueues(popped, c + 1, n, noViz);
    }
  }

  lemma {:induction false} PopViewsShown(qs: seq<seq<Frame>>, c: nat, n: nat, noViz: bool)
    requires c <= n <= |qs|
    ensures
      var r := PopViews(qs, c, n, noViz);
      var k := FirstEmpty(qs, c, n);
      && |r.shown| == (if noViz then 0 else k - c)
      && (!noViz ==> forall j :: 0 <= j < k - c ==> r.shown[j] == UpdateView(c + j, qs[c + j][0]))
    decreases n - c
  {
    if c < n && qs[c] != [] {
      var popped := qs[c := qs[c][1..]];
      FirstEmptyAgree(popped, qs, c + 1, n);
      PopViewsShown(popped, c + 1, n, noViz);
      var rest := PopViews(popped, c + 1, n, noViz);
      var k := FirstEmpty(qs, c, n);
      if !noViz {
        var shown := [UpdateView(c, qs[c][0])] + rest.shown;
        forall j | 0 <= j < k - c
          ensures shown[j] == UpdateView(c + j, qs[c + j][0])
        {
          if j > 0 {
            assert shown[j] == rest.shown[j - 1];
          }
        }
      }
    }
  }

  /**
   * A tick without a recorder error counts modulo 20 and refreshes the
   * duration label on every 20th tick, pops the cameras before the first
   * empty queue, and reports `respond_recording_fail` exactly when every
   * polled camera had a frame although the recorder is neither recording
   * nor viewing (and there is a socket).
   */
  lemma TickEffect(s: State)
    requires Invariant(s) && !s.rec.errorSet
    ensures
      var t := Tick(s);
      var qs := s.rec.queues;
      var k := FirstEmpty(qs, 0, s.attrs.numberCams);
      var p := PopViews(qs, 0, s.attrs.numberCams, s.widgets.disableViz);
      && t.attrs.timerUpdateCounter == (s.attrs.timerUpdateCounter + 1) % 20
      && t.calls == s.calls + (if s.attrs.timerUpdateCounter == 19 then [UpdateRecTimer] else []) + p.shown
      && |p.shown| == (if s.widgets.disableViz then 0 else k)
      && (forall i :: 0 <= i < |qs| ==> t.rec.queues[i] == if i < k then qs[i][1..] else qs[i])
      && t.sent == (if k == s.attrs.numberCams && !Busy(s.rec) && s.cfg.hasSocket then s.sent + [RespondRecordingFail] else s.sent)
      && t.timers.multiViewTimer == s.timers.multiViewTimer
  {
    PopViewsEffect(s.rec.queues, 0, s.attrs.numberCams, s.widgets.disableViz);
  }

  /**
   * A tick after a recorder error takes no frame, stops, and reports
   * `respond_recording_fail` when there is a socket. While the trigger pulses
   * the stop is deferred: only the board is asked to stop and the 500 ms
   * retry is armed. Otherwise the stop event is set, the calibration timers
   * and both preview polls are dropped (so the tick's own poll ends), and the
   * recorder is asked to stop what was running.
   */
  lemma TickOnError(s: State)
    requires Invariant(s) && s.rec.errorSet
    ensures
      var t := Tick(s);
      var reply := if s.cfg.hasSocket then [RespondRecordingFail] else [];
      && t.rec == s.rec
      && t.sent == s.sent + reply
      && (Deferring(s) ==>
            t == s.(calls := s.calls + [StopTrigger],
                    timers := s.timers.(triggerStopTimer := Some(Timer(500, true, StopCamsSlot))),
                    sent := s.sent + reply))
      && (!Deferring(s) ==>
            t == s.(attrs := s.attrs.(stopEvent := if s.attrs.stopEvent.Some? then Some(true) else None),
                    timers := s.timers.(calibStartTimer := None, calibStopTimer := None,
                                        singleViewTimer := None, multiViewTimer := None),
                    calls := s.calls
                             + (if s.timers.singleViewTimer.Some? then [StopSingleCamShow] else [])
                             + (if s.timers.multiViewTimer.Some? then [if s.rec.isRecording then StopMultiCamRecord else StopMultiCamShow] else []),
                    sent := s.sent + reply))
  {
  }

  lemma TickKeepsInvariant(s: State)
    requires Invariant(s)
    ensures Invariant(Tick(s))
  {
  }

  // ---------------------------------------------------------------- files

  /**
   * Copying happens only when the recorder is not recording and the files
   * are not yet copied. Then only the finished writers' targets are added
   * and at most the video folder is created; `respond_copy` is sent and the
   * files count as copied exactly when every finished writer's file was
   * copied, and `respond_copy_fail` is sent otherwise.
   */
  lemma CopyRecordedFileEffect(s: State)
    requires s.attrs.sessionPath.Some?
    ensures
      var t := CopyRecordedFile(s);
      var dst := Dest(s.attrs.sessionPath.value, s.attrs.sessionId, s.cfg.videoFolder);
      && (s.rec.isRecording || s.attrs.filesCopied ==> t == s)
      && (!s.rec.isRecording && !s.attrs.filesCopied ==>
            && t == s.(fs := t.fs, attrs := s.attrs.(filesCopied := t.attrs.filesCopied), sent := t.sent)
            && t.fs.docs == s.fs.docs
            && s.fs.files <= t.fs.files <= s.fs.files + StoppedTargets(s.rec.writers, dst)
            && s.fs.dirs <= t.fs.dirs <= s.fs.dirs + {TargetDir(dst)}
            && (t.attrs.filesCopied <==> !CopyWriters(s.rec.writers, dst, s.fs).failed)
            && (t.attrs.filesCopied ==> t.sent == s.sent + [RespondCopy] && t.fs.files == s.fs.files + StoppedTargets(s.rec.writers, dst))
            && (!t.attrs.filesCopied ==> t.sent == s.sent + [RespondCopyFail]))
  {
    CopyWritersEffect(s.rec.writers, Dest(s.attrs.sessionPath.value, s.attrs.sessionId, s.cfg.videoFolder), s.fs);
  }

  /**
   * When every finished writer's file exists, the target folder exists or can
   * be created, and no target is a directory or its own source, a copy
   * request while not recording copies every file, marks the files copied
   * and answers `respond_copy`.
   */
  lemma CopyRecordedFileSucceeds(s: State)
    requires s.attrs.sessionPath.Some? && !s.rec.isRecording && !s.attrs.filesCopied
    requires var dst := Dest(s.attrs.sessionPath.value, s.attrs.sessionId, s.cfg.videoFolder);
      && (forall w :: w in s.rec.writers && w.stopped ==> w.videoPath in s.fs.files)
      && (TargetDir(dst) in s.fs.dirs || (!ToSessionRoot(dst) && dst.sessionPath in s.fs.dirs && TargetDir(dst) !in s.fs.files))
      && (forall w :: w in s.rec.writers && w.stopped ==> Target(dst, w) !in s.fs.dirs && Target(dst, w) != w.videoPath)
    ensures var t := CopyRecordedFile(s);
      var dst := Dest(s.attrs.sessionPath.value, s.attrs.sessionId, s.cfg.videoFolder);
      && t.attrs.filesCopied
      && t.sent == s.sent + [RespondCopy]
      && t.fs.files == s.fs.files + StoppedTargets(s.rec.writers, dst)
  {
    var dst := Dest(s.attrs.sessionPath.value, s.attrs.sessionId, s.cfg.videoFolder);
    CopySucceeds(s.rec.writers, dst, s.fs);
    CopyWritersEffect(s.rec.writers, dst, s.fs);
  }

  /** After a successful copy, asking again does nothing until a new recording starts. */
  lemma CopyOnce(s: State, p: Option<string>)
    requires s.attrs.sessionPath.Some? && CopyRecordedFile(s).attrs.filesCopied && p.Some?
    ensures var t := CopyRecordedFile(s);
      CopyRecordedFile(t.(attrs := t.attrs.(sessionPath := p))) == t.(attrs := t.attrs.(sessionPath := p))
  {
  }

  // ---------------------------------------------------------------- settings

  /**
   * Saving and loading back the file the save dialog named restores every
   * general value and shows each camera the settings it held, when the
   * cameras' names are distinct and a save path is set.
   */
  lemma SaveThenLoad(s: State, d: Dialogs, d2: Dialogs)
    requires Invariant(s) && s.rec.camsConnected && d.saveFile != "" && s.rec.savePath != ""
    requires Distinct(s.rec.camNames)
    ensures
      var t := SaveSettings(s, d);
      var name := SettingsFileName(d.saveFile);
      var u := LoadSettings(t, name, d2);
      && name in t.fs.files
      && u.Some?
      && GeneralOf(u.value) == GeneralOf(s)
      && u.value.widgets.camSpins == s.rec.camHw
      && u.value.calls == s.calls + seq(|s.rec.camHw|, i requires 0 <= i < |s.rec.camHw| => SetCamSettings(i, s.rec.camHw[i]))
  {
    var cams := CamLib(s.rec.camNames, s.rec.camHw);
    LoadSaved(s, d, d2);
    SavedCamsRestored(s.rec.camNames, s.widgets.camSpins, s.rec.camHw);
    SaveLoadGeneralRoundTrip(GeneralOf(s), GeneralOf(s), cams, s.cfg.limits, d2.directory);
  }

  /**
   * With distinct names, the per-camera loop over the saved entries shows
   * every camera its saved settings and hands them to it, in camera order.
   */
  lemma SavedCamsRestored(names: seq<string>, spins: seq<CamSettings>, hw: seq<CamSettings>)
    requires |names| == |spins| == |hw| && Distinct(names)
    ensures LoadedSpins(names, spins, CamLib(names, hw)) == hw
    ensures CamCalls(names, CamLib(names, hw), 0) == seq(|hw|, i requires 0 <= i < |hw| => SetCamSettings(i, hw[i]))
  {
    CamLibLookup(names, hw);
    CamCallsAll(names, CamLib(names, hw), 0);
  }

  /** Loading the file just saved reads back the document `save_settings` wrote. */
  lemma LoadSaved(s: State, d: Dialogs, d2: Dialogs)
    requires Invariant(s) && s.rec.camsConnected && d.saveFile != ""
    ensures
      var t := SaveSettings(s, d);
      var name := SettingsFileName(d.saveFile);
      var u := LoadSettings(t, name, d2);
      var cams := CamLib(s.rec.camNames, s.rec.camHw);
      && name in t.fs.files
      && u.Some?
      && GeneralOf(u.value) == LoadGeneral(GeneralOf(s), SaveDoc(cams, GeneralOf(s)), s.cfg.limits, d2.directory)
      && u.value.widgets.camSpins == LoadedSpins(s.rec.camNames, s.widgets.camSpins, cams)
      && u.value.calls == s.calls + CamCalls(s.rec.camNames, cams, 0)
  {
    SettingsFileNameIdempotent(d.saveFile);
    assert SettingsFileName(d.saveFile) != "";
  }

  /**
   * When every camera has an entry, the per-camera loop hands each camera,
   * in order, the entry under its name.
   */
  lemma {:induction false} CamCallsAll(names: seq<string>, cams: map<string, CamSettings>, c: nat)
    requires c <= |names|
    requires forall i :: c <= i < |names| ==> names[i] in cams
    ensures |CamCalls(names, cams, c)| == |names| - c
    ensures forall i :: c <= i < |names| ==> CamCalls(names, cams, c)[i - c] == SetCamSettings(i, cams[names[i]])
    decreases |names| - c
  {
    if c < |names| {
      CamCallsAll(names, cams, c + 1);
      var rest := CamCalls(names, cams, c + 1);
      assert CamCalls(names, cams, c) == [SetCamSettings(c, cams[names[c]])] + rest;
      forall i | c < i < |names|
        ensures CamCalls(names, cams, c)[i - c] == SetCamSettings(i, cams[names[i]])
      {
        assert CamCalls(names, cams, c)[i - c] == rest[i - (c + 1)];
      }
    }
  }

  /**
   * A camera without an entry is skipped: camera `i` is handed `x` exactly
   * when it is at or after `c`, its name has an entry, and `x` is that entry.
   */
  lemma {:induction false} CamCallsPartial(names: seq<string>, cams: map<string, CamSettings>, c: nat, i: nat, x: CamSettings)
    requires c <= |names|
    ensures SetCamSettings(i, x) in CamCalls(names, cams, c) <==> c <= i < |names| && names[i] in cams && x == cams[names[i]]
    decreases |names| - c
  {
    if c < |names| {
      CamCallsPartial(names, cams, c + 1, i, x);
      var head := if names[c] in cams then [SetCamSettings(c, cams[names[c]])] else [];
      assert CamCalls(names, cams, c) == head + CamCalls(names, cams, c + 1);
      assert SetCamSettings(i, x) in head <==> i == c && names[c] in cams && x == cams[names[c]];
    }
  }

  /** The per-camera loop calls nothing but `set_cam_settings`. */
  lemma {:induction false} CamCallsOnlySettings(names: seq<string>, cams: map<string, CamSettings>, c: nat)
    ensures forall x :: x in CamCalls(names, cams, c) ==> x.SetCamSettings?
    decreases |names| - c
  {
    if c < |names| {
      CamCallsOnlySettings(names, cams, c + 1);
    }
  }

  /** Saving writes only the named settings file and keeps the invariant. */
  lemma SaveSettingsEffect(s: State, d: Dialogs)
    requires Invariant(s)
    ensures
      var t := SaveSettings(s, d);
      && Invariant(t)
      && t == s.(fs := t.fs)
      && t.fs.dirs == s.fs.dirs
      && (!s.rec.camsConnected || d.saveFile == "" ==> t == s)
      && (s.rec.camsConnected && d.saveFile != "" ==>
            t.fs.files == s.fs.files + {SettingsFileName(d.saveFile)}
            && forall f :: f in s.fs.docs && f != SettingsFileName(d.saveFile) ==> f in t.fs.docs && t.fs.docs[f] == s.fs.docs[f])
  {
  }

  /** Handlers outside the dispatcher keep the invariant. */
  lemma StartsKeepInvariant(s: State)
    requires Invariant(s)
    ensures Invariant(StartRecording(s)) && Invariant(ShowMultipleCam(s)) && Invariant(StartRecordingCalib(s))
  {
  }

  lemma StopCamsKeepsInvariant(s: State)
    requires Invariant(s)
    ensures Invariant(StopCams(s))
  {
  }

  lemma FileHandlersKeepInvariant(s: State)
    requires Invariant(s)
    ensures Invariant(PurgeRecordedFile(s))
    ensures s.attrs.sessionPath.Some? ==> Invariant(CopyRecordedFile(s))
  {
  }
}
