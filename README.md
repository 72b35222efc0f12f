# FreiPose Recorder: the control layer of the recorder window

`BASLER_GUI` in `FreiPose_Recorder/GUI_run.py` is the Qt main window of a
multi-camera recorder for Basler cameras. It can be driven by hand or, in
remote mode, by JSON messages on a socket. This project models the window's
control layer in Dafny, with the widget calls removed:

- the remote-command dispatcher `check_and_parse_messages`, and
  `enter_remote_mode` / `exit_remote_mode`;
- the start transitions `start_recording`, `show_multiple_cam` and
  `start_recording_calib`, and the deferred teardown `stop_cams`;
- the preview poll `update_multi_view`;
- the file post-processing `copy_recorded_file` and `purge_recorded_file`;
- the serial-line splitter `parse_message`;
- the settings-file logic of `save_settings` and `load_settings`: the file
  name rule, the per-camera skip and the chain of general keys.

The files:

- `wrappers.dfy` holds `Option`.
- `text.dfy` holds Python's `str.split` for a one-character separator, its
  inverse `join`, substring search and `Path(p).name`.
- `serial.dfy` holds `parse_message`.
- `settings.dfy` holds the settings document, the spin-box clamp, the file
  name rule and the general-key chain.
- `files.dfy` holds a small filesystem that decides which copy, mkdir and
  unlink calls succeed, and the copy and purge loops as functions over it.
- `control.dfy` describes the window as a value `State`. It groups the
  window's attributes (`Attrs`), its `QTimer`s (`Timers`) and its widget
  values (`Widgets`), next to the recorder, the trigger board and the
  filesystem it drives. Every handler is a function from the state before to
  the state after. What the window asks of the recorder, trigger board and
  socket is appended to `calls`. What it sends to the remote peer is appended
  to `sent`. `Invariant` is what holds between handlers.
- `control_props.dfy` proves what the handlers guarantee.
- `gui.dfy` is the window as a class, `Gui.BaslerGui`. Its fields are those
  three groups and the collaborators, and its methods update them step by
  step as the source does, with loops where the source loops. Each method
  ensures that `Model()` afterwards equals the matching `Control` function
  applied to `old(Model())`. Every handler also ensures that the invariant
  still holds. The two steps of `load_settings`, `ApplyCamSettings` and
  `ApplyGeneralSettings`, state only the model equality; `LoadSettings`
  restores the invariant after them. The lemmas of `control_props.dfy`
  therefore apply to the class.

Some of the code's behaviour may be unexpected, and the model keeps it as
written:

- `copy_files` with an empty path, `purge_files` and `disconnected` send no
  reply. So does `copy_files` while recording or once files are copied. Not
  every message gets exactly one answer.
- `start_video_calibrec` only arms two single-shot timers. The recorder is not
  busy afterwards, so a second start message is accepted
  (`CalibDoesNotBlockNextStart`).
- The video sub-folder is created only when the session folder exists. When
  the session folder does not exist and the video folder is not already a
  directory, the copy fails at the first finished writer
  (`Files.CopyFailsWithoutSessionFolder`).

## Model

| member | source | states |
|---|---|---|
| Text.Split | FreiPose_Recorder/GUI_run.py:174-176 | `str.split` with one separator never yields an empty list |
| Text.SplitCount | FreiPose_Recorder/GUI_run.py:527 | there is exactly one piece more than there are separators in the string |
| Text.JoinSplit | FreiPose_Recorder/GUI_run.py:174-176 | joining the pieces with the separator restores the string |
| Text.SplitPiecesFree | FreiPose_Recorder/GUI_run.py:174-176 | no piece contains the separator |
| Text.SplitHead | FreiPose_Recorder/GUI_run.py:174 | the first piece is the text before the first separator, or the whole string when there is none |
| Text.SplitPrefix | FreiPose_Recorder/GUI_run.py:174 | separator-free text followed by the separator is exactly the first piece |
| Text.SplitTail | FreiPose_Recorder/GUI_run.py:176 | the pieces after the first are the pieces of what follows the first separator |
| Text.SplitAfter | FreiPose_Recorder/GUI_run.py:176 | the pieces after the first are the split of the text after the first separator's position |
| Text.ContainsIff | FreiPose_Recorder/GUI_run.py:851 | the `in` test on strings holds exactly when the text occurs as a contiguous substring at some index |
| Text.Basename | FreiPose_Recorder/GUI_run.py:853 | `Path(p).name` holds no `/` |
| Serial.ParseMessageType | FreiPose_Recorder/GUI_run.py:173-179 | the type is the text up to the first `_` (all of it when there is none); a payload exists exactly when the message holds a `_` |
| Serial.ParseMessagePayload | FreiPose_Recorder/GUI_run.py:175-176 | the payload is only the second segment: it holds no `_`, starts after the first `_`, and ends at the end or at a second `_` |
| Serial.PongIff | FreiPose_Recorder/GUI_run.py:181-184 | the window reacts exactly to `PONG` or to `PONG_` followed by anything |
| Settings.Clamp | FreiPose_Recorder/GUI_run.py:576-578 | a spin box's `setValue` lands in its range: values in it are kept, a value below goes to the minimum and one above to the maximum |
| Settings.SettingsFileNameRule | FreiPose_Recorder/GUI_run.py:527-528 | `.settings.json` is appended exactly when the chosen name contains no `.` |
| Settings.SettingsFileNameIdempotent | FreiPose_Recorder/GUI_run.py:527-528 | applying the suffix rule twice gives the same name as once, and the result always contains a `.` |
| Settings.PresentPrefix | FreiPose_Recorder/GUI_run.py:574-582 | the count of general keys before the first absent one: the first `k` keys, in the order HW_trigg, crf, codec, fps, save_path, are present and key `k` is absent |
| Settings.LoadGeneralStopsAtFirstMissing | FreiPose_Recorder/GUI_run.py:574-582 | the general keys are applied in the order HW_trigg, crf, codec, fps, save_path; the first absent key stops the chain, and later values keep their old values even when present |
| Settings.LoadGeneralInRange | FreiPose_Recorder/GUI_run.py:575-579 | loading never takes the frame rate, crf or codec outside the widgets' ranges and items |
| Settings.CamLibKeys | FreiPose_Recorder/GUI_run.py:513-516 | the saved file has an entry under exactly the cameras' names |
| Settings.CamLibLookup | FreiPose_Recorder/GUI_run.py:513-516 | with distinct names, each camera's entry holds that camera's settings |
| Settings.SaveLoadGeneralRoundTrip | FreiPose_Recorder/GUI_run.py:518-579 | loading the general values a save wrote restores them all, whatever the window showed before |
| Files.Stopped | FreiPose_Recorder/GUI_run.py:846-847 | a writer is kept exactly when it is listed and finished, and no more writers come out than went in |
| Files.StoppedAppend | FreiPose_Recorder/GUI_run.py:846-847 | keeping the finished writers distributes over concatenation, so their order is the recorder's order |
| Files.CopyOneEffect | FreiPose_Recorder/GUI_run.py:849-859 | the target is `<session_path>/<name>` for a MusterMaus session and `<session_path>/<VIDEO_FOLDER>/<name>` otherwise; only the video folder may be created, and only when the session folder exists |
| Files.CopyWritersOnlyStopped | FreiPose_Recorder/GUI_run.py:846-847 | unfinished writers play no part in the copy loop |
| Files.CopyWritersAppend | FreiPose_Recorder/GUI_run.py:846-863 | the copy loop runs in writer order, and an error skips every later writer |
| Files.CopyWritersEffect | FreiPose_Recorder/GUI_run.py:845-866 | only finished writers' targets are added and at most the video folder is created; a run without error copied every finished writer |
| Files.CopySucceeds | FreiPose_Recorder/GUI_run.py:846-863 | when every finished writer's file exists, the target folder exists or can be created in an existing session folder, and no target is a directory or its own source, the copy loop ends without error |
| Files.CopyFailsWithoutSessionFolder | FreiPose_Recorder/GUI_run.py:852-859 | outside the MusterMaus case, with no session folder and no video folder, the loop fails at the first finished writer and changes nothing |
| Files.PurgeWritersEffect | FreiPose_Recorder/GUI_run.py:836-842 | only finished writers' files are deleted and no directory changes; a run without error deleted them all, which needs each to exist |
| Files.PurgeKeepsUnfinished | FreiPose_Recorder/GUI_run.py:836-842 | an unfinished writer's file stays unless a finished writer shares its path |
| Files.PurgeSucceeds | FreiPose_Recorder/GUI_run.py:836-842 | when every finished writer has its own existing file, the purge completes without error |
| Control.InitialInvariant | FreiPose_Recorder/GUI_run.py:47-106 | the window starts outside remote mode, with nothing sent, nothing copied and the invariant holding |
| Control.LoadSettings | FreiPose_Recorder/GUI_run.py:532-582 | loading changes only the spin boxes, the general widgets, the save path and the recorder calls, and keeps the invariant |
| Control.LoadRequested | FreiPose_Recorder/GUI_run.py:775-780 | the settings-file step of a start message changes only settings, and a missing file is ignored |
| Control.PrepareStart | FreiPose_Recorder/GUI_run.py:775-789 | preparing an accepted start keeps the invariant and remote mode |
| ControlProperties.BusyStartIsRejected | FreiPose_Recorder/GUI_run.py:765-772 | a start message while recording or viewing sends exactly one `status_error` and changes nothing else |
| ControlProperties.AcceptedStart | FreiPose_Recorder/GUI_run.py:775-804 | an accepted start takes the message's session id, polls every 5000 ms, takes a present non-zero frame rate (clamped), sends exactly the matching acknowledgement, and starts the matching acquisition; calibration only arms its two timers |
| ControlProperties.StartSettingFile | FreiPose_Recorder/GUI_run.py:775-780 | an absent or empty setting file, unconnected cameras or a missing file leave the window as it was; otherwise the file's camera entries and general keys are applied |
| ControlProperties.CalibDoesNotBlockNextStart | FreiPose_Recorder/GUI_run.py:294-311 | a calibration start makes no recorder call besides the settings file's `set_cam_settings`, so the recorder stays idle and the next start message is acknowledged |
| ControlProperties.LoadRequestedCalls | FreiPose_Recorder/GUI_run.py:556-563 | the settings-file step of a start message only adds `set_cam_settings` calls to the log |
| ControlProperties.PollStatusReply | FreiPose_Recorder/GUI_run.py:812-820 | `poll_status` answers recording, else viewing, else ready, and changes nothing else; in remote mode it never answers `status_error` |
| ControlProperties.StopMessage | FreiPose_Recorder/GUI_run.py:806-810 | `stop_video` runs `stop_cams`, sets the poll interval to 500 ms and answers `respond_stop` |
| ControlProperties.DispatchReplies | FreiPose_Recorder/GUI_run.py:761-834 | each message gets at most one reply: start, stop and poll messages exactly one; no message, `disconnected`, `purge_files` and unknown types none; `copy_files` one exactly when its path is non-empty and copying is allowed |
| ControlProperties.CopyFilesMessage | FreiPose_Recorder/GUI_run.py:826-830 | `copy_files` stores the session path it carries and copies only when that path is non-empty |
| ControlProperties.PurgeFilesMessage | FreiPose_Recorder/GUI_run.py:832-834 | `purge_files` answers nothing, deletes only finished writers' files and changes nothing else |
| ControlProperties.DispatchKeepsInvariant | FreiPose_Recorder/GUI_run.py:761-834 | every message keeps the invariant, and remote mode ends exactly on `disconnected` |
| ControlProperties.StartMessageKeepsInvariant | FreiPose_Recorder/GUI_run.py:764-804 | start messages keep the invariant and remote mode |
| ControlProperties.StopMessageKeepsInvariant | FreiPose_Recorder/GUI_run.py:806-810 | `stop_video` keeps the invariant and remote mode |
| ControlProperties.FileMessageKeepsInvariant | FreiPose_Recorder/GUI_run.py:826-834 | `copy_files` and `purge_files` keep the invariant and remote mode |
| ControlProperties.AcceptStartKeepsInvariant | FreiPose_Recorder/GUI_run.py:775-804 | an accepted start keeps the invariant and remote mode |
| ControlProperties.EnterThenExit | FreiPose_Recorder/GUI_run.py:703-759 | entering remote mode sets up the 500 ms poll and announces `status_ready`; leaving closes the socket, drops the poll and clears the session-id field |
| ControlProperties.StopCamsWhilePulsing | FreiPose_Recorder/GUI_run.py:314-321 | while the trigger pulses, any number of `stop_cams` runs only ask the board to stop and re-arm the 500 ms retry; the stop event is not set and nothing is torn down |
| ControlProperties.StopCamsTeardown | FreiPose_Recorder/GUI_run.py:323-344 | otherwise the stop event is set, the calibration timers and preview polls are dropped, and the recorder is asked to stop single view and then the recording (or, when not recording, the preview) |
| ControlProperties.StopCamsIdempotent | FreiPose_Recorder/GUI_run.py:313-344 | a second completed `stop_cams` changes nothing |
| ControlProperties.StartRearmsCopy | FreiPose_Recorder/GUI_run.py:248 | a recording start resets the copied flag and a preview start keeps it; both poll every camera |
| ControlProperties.ShowIntervalBounds | FreiPose_Recorder/GUI_run.py:430 | the preview poll runs at most `1000/fps` ms apart, and at a positive interval up to 833 fps |
| ControlProperties.StartArmsTrigger | FreiPose_Recorder/GUI_run.py:284-290 | with a trigger board and the HW-trigger box checked, a start gives the board the frame rate and arms its start 500 ms later; otherwise the board and its timer are untouched |
| ControlProperties.FirstEmpty | FreiPose_Recorder/GUI_run.py:466-473 | the first polled camera with an empty queue, or the number of polled cameras when none is empty |
| ControlProperties.FirstEmptyAgree | FreiPose_Recorder/GUI_run.py:466-473 | the first empty queue depends only on the polled queues |
| ControlProperties.PopViewsEffect | FreiPose_Recorder/GUI_run.py:465-473 | one tick pops exactly the cameras before the first empty queue and shows their frames in camera order (none with visualisation disabled); it is complete exactly when no polled queue was empty |
| ControlProperties.PopViewsQueues | FreiPose_Recorder/GUI_run.py:466-473 | the queue half of the previous row |
| ControlProperties.PopViewsShown | FreiPose_Recorder/GUI_run.py:467-471 | the display half of the previous row |
| ControlProperties.TickEffect | FreiPose_Recorder/GUI_run.py:461-489 | a tick without error counts modulo 20, refreshes the duration label every 20th tick, pops the queues, and reports `respond_recording_fail` exactly when every queue had a frame but the recorder is neither recording nor viewing |
| ControlProperties.TickOnError | FreiPose_Recorder/GUI_run.py:454-459 | a tick after a recorder error takes no frame and reports `respond_recording_fail` when there is a socket; while the trigger pulses it only asks the board to stop and arms the 500 ms retry, otherwise it sets the stop event, drops the calibration timers and both preview polls, and asks the recorder to stop single view and then the recording or preview |
| ControlProperties.TickKeepsInvariant | FreiPose_Recorder/GUI_run.py:452-489 | the preview tick keeps the invariant |
| ControlProperties.CopyRecordedFileEffect | FreiPose_Recorder/GUI_run.py:844-866 | no copy while recording or once copied; otherwise only finished writers' targets are added, the flag is set exactly when the copy loop ended without error, with `respond_copy` and every target copied, and `respond_copy_fail` is sent otherwise |
| ControlProperties.CopyRecordedFileSucceeds | FreiPose_Recorder/GUI_run.py:844-866 | when the files and folders allow every copy, a copy request while not recording copies every finished writer's file, sets the flag and answers `respond_copy` |
| ControlProperties.CopyOnce | FreiPose_Recorder/GUI_run.py:845 | after a successful copy, another copy request does nothing |
| ControlProperties.SaveThenLoad | FreiPose_Recorder/GUI_run.py:499-582 | loading the file just saved restores every general value, shows each camera its own settings, and hands camera `i` its settings with one `set_cam_settings` call each, in camera order, when names are distinct and a save path is set |
| ControlProperties.LoadSaved | FreiPose_Recorder/GUI_run.py:523-582 | loading the file just saved reads back the document `save_settings` wrote: its camera entries and its general keys |
| ControlProperties.SavedCamsRestored | FreiPose_Recorder/GUI_run.py:513-569 | with distinct names, the per-camera loop over the saved entries restores every camera's spin boxes and calls `set_cam_settings` with its saved settings, in camera order |
| ControlProperties.CamCallsAll | FreiPose_Recorder/GUI_run.py:556-563 | when every camera has an entry, camera `i` is handed the entry under its name, in camera order |
| ControlProperties.CamCallsPartial | FreiPose_Recorder/GUI_run.py:556-563 | a camera whose name has no entry is skipped: camera `i` is handed `x` exactly when its name has an entry and `x` is that entry |
| ControlProperties.CamCallsOnlySettings | FreiPose_Recorder/GUI_run.py:556-563 | the per-camera loop calls nothing but `set_cam_settings` |
| ControlProperties.SaveSettingsEffect | FreiPose_Recorder/GUI_run.py:499-530 | saving writes only the file the dialog named (after the suffix rule), nothing without cameras or on cancel, and keeps the invariant |
| ControlProperties.StartsKeepInvariant | FreiPose_Recorder/GUI_run.py:247-311 | the three starts keep the invariant |
| ControlProperties.StopCamsKeepsInvariant | FreiPose_Recorder/GUI_run.py:313-344 | `stop_cams` keeps the invariant |
| ControlProperties.FileHandlersKeepInvariant | FreiPose_Recorder/GUI_run.py:836-866 | copy and purge keep the invariant |
| Gui.BaslerGui.constructor | FreiPose_Recorder/GUI_run.py:47-106 | `__init__` leaves the window in the initial state, outside remote mode, with the invariant holding |
| Gui.BaslerGui.StartRecording | FreiPose_Recorder/GUI_run.py:247-292 | the window ends as `Control.StartRecording` of its old state and keeps the invariant |
| Gui.BaslerGui.StartRecordingCalib | FreiPose_Recorder/GUI_run.py:294-311 | the window ends as `Control.StartRecordingCalib` of its old state and keeps the invariant |
| Gui.BaslerGui.ShowMultipleCam | FreiPose_Recorder/GUI_run.py:421-450 | the window ends as `Control.ShowMultipleCam` of its old state and keeps the invariant |
| Gui.BaslerGui.StopCams | FreiPose_Recorder/GUI_run.py:313-344 | the window ends as `Control.StopCams` of its old state and keeps the invariant |
| Gui.BaslerGui.EnterRemoteMode | FreiPose_Recorder/GUI_run.py:703-729 | the window ends as `Control.EnterRemoteMode` of its old state and keeps the invariant |
| Gui.BaslerGui.ExitRemoteMode | FreiPose_Recorder/GUI_run.py:731-759 | the window ends as `Control.ExitRemoteMode` of its old state and keeps the invariant |
| Gui.BaslerGui.CopyRecordedFile | FreiPose_Recorder/GUI_run.py:844-866 | the copy loop leaves the window as `Control.CopyRecordedFile` describes and keeps the invariant |
| Gui.BaslerGui.PurgeRecordedFile | FreiPose_Recorder/GUI_run.py:836-842 | the purge loop leaves the window as `Control.PurgeRecordedFile` describes, keeps the invariant, and reports the FileNotFoundError that ends it |
| Gui.BaslerGui.LoadSettings | FreiPose_Recorder/GUI_run.py:532-582 | the window ends as `Control.LoadSettings` describes, unchanged when the file is missing, and keeps the invariant |
| Gui.BaslerGui.ApplyCamSettings | FreiPose_Recorder/GUI_run.py:556-569 | each camera with an entry gets it in its spin boxes and a `set_cam_settings` call, in camera order; the others are skipped |
| Gui.BaslerGui.ApplyGeneralSettings | FreiPose_Recorder/GUI_run.py:574-582 | the general keys are applied in order until the first absent one, as `Settings.LoadGeneral` describes |
| Gui.BaslerGui.SaveSettings | FreiPose_Recorder/GUI_run.py:499-530 | the window ends as `Control.SaveSettings` describes and keeps the invariant |
| Gui.BaslerGui.UpdateMultiView | FreiPose_Recorder/GUI_run.py:452-489 | the window ends as `Control.Tick` of its old state and keeps the invariant |
| Gui.BaslerGui.CheckAndParseMessages | FreiPose_Recorder/GUI_run.py:761-834 | the window ends as `Control.Dispatch` of its old state and the message, and keeps the invariant |
| Gui.BaslerGui.StartFromMessage | FreiPose_Recorder/GUI_run.py:775-804 | an accepted start message leaves the window as `Control.AcceptStart` describes |
| Gui.BaslerGui.ApplyStartArgs | FreiPose_Recorder/GUI_run.py:775-789 | the setting file, session id, frame rate and 5000 ms poll interval of a start message are applied as `Control.PrepareStart` describes |
| Gui.PopQueues | FreiPose_Recorder/GUI_run.py:465-473 | the pop loop returns the queues, the views shown and the completeness that `Control.PopViews` describes |

## Left out

- Widget presentation is not modelled: enabling and disabling, icons, style
  sheets, status-bar text, message boxes and labels. The widget values the
  window reads back (frame rate, codec, crf, HW-trigger box, session-id field,
  visualisation box, per-camera spin boxes) are plain values. The spin-box
  ranges come from the designer file, which is not part of this model, and
  the codec items from `codec_to_try` in `configs.params` (line 69), which is
  not part of it either, so both are a parameter (`Limits`).
- Settings.SelectText: the codec combo box is assumed not to be editable, so
  `setCurrentText` at line 577 only selects an existing item. Whether it is
  editable is decided by the designer file. `Settings.LoadGeneralInRange`
  relies on this for the codec.
- Control.LoadedSpins: the per-camera spin boxes are not clamped, and the
  colour-mode box is not limited to its items (line 569): a loaded entry is
  shown unchanged.
- Real time is not modelled. A `QTimer` is a record of its interval,
  single-shot flag and slot; timers never fire on their own, and a handler
  runs when its method is called. `time.monotonic`, `rec_start_time` and the
  text `update_rec_timer` writes are left out; its call is logged as
  `UpdateRecTimer`.
- The `reset_ping` thread (lines 160-165, 183) is left out. So is the rest of
  the serial path (`pico_data_received` decoding, port scanning, ping). Only
  the decision of `parse_message` is modelled. Line 183 uses `Thread`, which
  line 15 does not import.
- The code of `Recorder`, `SocketComm`, `QtPicoSerial` and `configs.params` is
  not part of this model. Their state is what the window reads: the
  recording, viewing and error flags, connected cameras, camera names and
  settings, writers and their `stopped` flag, preview queues, and the trigger
  board's `is_pulsing`. The model assumes one preview queue and one
  spin-box set per camera. Calls into them are logged in `calls` and
  socket sends in `sent`.
- The filesystem is a set of directories, a set of files and a map of
  parseable settings documents. Path normalisation, permissions, partial
  copies and JSON decoding errors are not modelled.
- Files.Fs: a directory is not tied to its parent, so a video folder that is
  recorded as existing while its session folder is not is accepted as a
  copy target. A real filesystem cannot be in that state.
- Settings.ValidLimits: the frame-rate spin box's minimum is assumed to be at
  least 1. Line 430 divides by the frame rate, and the designer file that
  sets the minimum is not part of this model.
- Settings.SettingsDoc: a general key is either absent or holds a value of
  its type. A JSON `null` for `save_path` is written as an empty path, which
  `set_save_path` treats the same way (lines 584-589). A `null` or a
  mistyped value for the other general keys would raise inside the Qt
  setters, which is not modelled.
- Control.LoadSettings: a camera entry without `exp_time`, `gain` or
  `color_mode` raises KeyError, which is not modelled.
- Control.LoadSettings: camera names that equal a general key are not
  modelled (in the file they share one dictionary).
- Control.ShowMultipleCam: the interval `int(1000 // (fps * 1.2))` is
  computed exactly as `5000 / (6 * fps)`. Floating-point rounding is not
  modelled.
- Control.Tick: when there is no socket, line 489 would raise
  AttributeError. The model sends nothing in that case.
- Control.PurgeRecordedFile: a missing file ends the loop with
  FileNotFoundError, which escapes the handler. The model keeps the files
  deleted so far and does not model the exception's propagation.
- Control.Dispatch: a message missing `type` or `session_id`, or with a
  non-string `setting_file`, raises out of the handler. Messages are
  well-formed here; an absent `setting_file` or `frame_rate` is None.
- `number_cams` is first set by a start; `__init__` does not set it. The model
  starts it at 0.
- `show_single_cam` / `update_single_view`, camera-control forwarding (auto
  exposure, gain, white balance, flips, colour mode) and camera and port
  scanning are not modelled. Neither is the remote-connection dialog
  (`remote_mode`), except for the two mode changes it triggers.
- The repository-root `GUI_run.py` (an older window without remote control)
  and `setup.py` are not part of this model.
