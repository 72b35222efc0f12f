/**
 * The file post-processing of `BASLER_GUI`: copying each finished video
 * writer's file into the session folder (`copy_recorded_file`) and deleting
 * finished files (`purge_recorded_file`), over a small model of the
 * filesystem that decides which calls succeed.
 */
module Files {
  import opened Wrappers
  import opened Text
  import Settings

  /** A video writer of the recorder: its output file and whether it has finished. */
  datatype Writer = Writer(videoPath: string, stopped: bool)

  /**
   * The filesystem as the window sees it: existing directories, existing
   * files, and the settings files that parse.
   */
  datatype Fs = Fs(dirs: set<string>, files: set<string>, docs: map<string, Settings.SettingsDoc>)

  /** `Path(dir) / name`. */
  function PathJoin(dir: string, name: string): string
  {
    dir + "/" + name
  }

  /** `Path(p).exists()`. */
  predicate Exists(fs: Fs, p: string)
  {
    p in fs.dirs || p in fs.files
  }

  /**
   * `Path(dir).mkdir(exist_ok=True)` where `parent` is the directory holding
   * `dir`: an existing directory is fine, an existing file or a missing
   * parent raises.
   */
  function MakeDir(fs: Fs, parent: string, dir: string): Option<Fs>
  {
    if dir in fs.dirs then Some(fs)
    else if dir !in fs.files && parent in fs.dirs then Some(fs.(dirs := fs.dirs + {dir}))
    else None
  }

  /**
   * `shutil.copyfile(src, Path(dir) / name)`: raises unless the source file
   * and the target directory exist, the target is not a directory and not
   * the source itself.
   */
  function CopyFile(fs: Fs, src: string, dir: string, name: string): Option<Fs>
  {
    var dst := PathJoin(dir, name);
    if src in fs.files && dir in fs.dirs && dst !in fs.dirs && dst != src
    then Some(fs.(files := fs.files + {dst}))
    else None
  }

  /** Where a copy goes: the session folder, the session id, and `VIDEO_FOLDER`. */
  datatype Dest = Dest(sessionPath: string, sessionId: string, videoFolder: string)

  /** The legacy exception: a session id containing `MusterMaus` copies into the session folder itself. */
  predicate ToSessionRoot(d: Dest)
  {
    Contains(d.sessionId, "MusterMaus")
  }

  function TargetDir(d: Dest): string
  {
    if ToSessionRoot(d) then d.sessionPath else PathJoin(d.sessionPath, d.videoFolder)
  }

  function Target(d: Dest, w: Writer): string
  {
    PathJoin(TargetDir(d), Basename(w.videoPath))
  }

  /** The filesystem after a loop, and whether the loop ended on an error. */
  datatype Outcome = Outcome(fs: Fs, failed: bool)

  /**
   * One pass of the copy loop's body for a finished writer: outside the
   * legacy case the video folder is created first, but only when the session
   * folder exists; then the file is copied.
   */
  function CopyOne(w: Writer, d: Dest, fs: Fs): Outcome
  {
    var prepared := if ToSessionRoot(d) || !Exists(fs, d.sessionPath) then Some(fs)
                    else MakeDir(fs, d.sessionPath, TargetDir(d));
    match prepared
    case None => Outcome(fs, true)
    case Some(f) =>
      match CopyFile(f, w.videoPath, TargetDir(d), Basename(w.videoPath))
      case None => Outcome(f, true)
      case Some(f2) => Outcome(f2, false)
  }

  /** The copy loop: writers in order, finished ones only, stopping at the first error. */
  function CopyWriters(ws: seq<Writer>, d: Dest, fs: Fs): Outcome
    decreases |ws|
  {
    if ws == [] then Outcome(fs, false)
    else if !ws[0].stopped then CopyWriters(ws[1..], d, fs)
    else
      var o := CopyOne(ws[0], d, fs);
      if o.failed then o else CopyWriters(ws[1..], d, o.fs)
  }

  /** The finished writers, in the order the recorder lists them. */
  function Stopped(ws: seq<Writer>): (r: seq<Writer>)
    ensures forall w :: w in r <==> w in ws && w.stopped
    ensures |r| <= |ws|
    decreases |ws|
  {
    if ws == [] then []
    else if ws[0].stopped then [ws[0]] + Stopped(ws[1..])
    else Stopped(ws[1..])
  }

  /** Keeping the finished writers preserves their order: filtering distributes over concatenation. */
  lemma {:induction false} StoppedAppend(ws1: seq<Writer>, ws2: seq<Writer>)
    ensures Stopped(ws1 + ws2) == Stopped(ws1) + Stopped(ws2)
    decreases |ws1|
  {
    if ws1 == [] {
      assert ws1 + ws2 == ws2;
    } else {
      assert (ws1 + ws2)[1..] == ws1[1..] + ws2;
      StoppedAppend(ws1[1..], ws2);
    }
  }

  function StoppedTargets(ws: seq<Writer>, d: Dest): set<string>
    decreases |ws|
  {
    if ws == [] then {}
    else (if ws[0].stopped then {Target(d, ws[0])} else {}) + StoppedTargets(ws[1..], d)
  }

  function StoppedPaths(ws: seq<Writer>): set<string>
    decreases |ws|
  {
    if ws == [] then {}
    else (if ws[0].stopped then {ws[0].videoPath} else {}) + StoppedPaths(ws[1..])
  }

  /**
   * A finished writer's file lands in `<session_path>/<name>` in the legacy
   * case and in `<session_path>/<VIDEO_FOLDER>/<name>` otherwise; the only
   * directory the copy may create is the video folder, and only when the
   * session folder exists.
   */
  lemma CopyOneEffect(w: Writer, d: Dest, fs: Fs)
    ensures Target(d, w) == if Contains(d.sessionId, "MusterMaus")
                            then PathJoin(d.sessionPath, Basename(w.videoPath))
                            else PathJoin(PathJoin(d.sessionPath, d.videoFolder), Basename(w.videoPath))
    ensures var o := CopyOne(w, d, fs);
      && o.fs.docs == fs.docs
      && o.fs.dirs - fs.dirs <= (if !ToSessionRoot(d) && Exists(fs, d.sessionPath) then {TargetDir(d)} else {})
      && o.fs.files == (if o.failed then fs.files else fs.files + {Target(d, w)})
  {
  }

  /** Non-finished writers play no part: the loop behaves as if only the finished ones were listed. */
  lemma {:induction false} CopyWritersOnlyStopped(ws: seq<Writer>, d: Dest, fs: Fs)
    ensures CopyWriters(ws, d, fs) == CopyWriters(Stopped(ws), d, fs)
    decreases |ws|
  {
    if ws != [] {
      if ws[0].stopped {
        var o := CopyOne(ws[0], d, fs);
        assert ([ws[0]] + Stopped(ws[1..]))[1..] == Stopped(ws[1..]);
        if !o.failed {
          CopyWritersOnlyStopped(ws[1..], d, o.fs);
        }
      } else {
        CopyWritersOnlyStopped(ws[1..], d, fs);
      }
    }
  }

  /**
   * The loop runs left to right and an error ends it: after a failure in the
   * first part the second part is skipped entirely; otherwise the second part
   * runs on the filesystem the first part left.
   */
  lemma {:induction false} CopyWritersAppend(ws1: seq<Writer>, ws2: seq<Writer>, d: Dest, fs: Fs)
    ensures var r1 := CopyWriters(ws1, d, fs);
      CopyWriters(ws1 + ws2, d, fs) == if r1.failed then r1 else CopyWriters(ws2, d, r1.fs)
    decreases |ws1|
  {
    if ws1 != [] {
      assert (ws1 + ws2)[1..] == ws1[1..] + ws2;
      if ws1[0].stopped {
        var o := CopyOne(ws1[0], d, fs);
        if !o.failed {
          CopyWritersAppend(ws1[1..], ws2, d, o.fs);
        }
      } else {
        CopyWritersAppend(ws1[1..], ws2, d, fs);
      }
    } else {
      assert ws1 + ws2 == ws2;
    }
  }

  /**
   * Only targets of finished writers are added and only the video folder may
   * be created; a run without error has copied every finished writer.
   */
  lemma {:induction false} CopyWritersEffect(ws: seq<Writer>, d: Dest, fs: Fs)
    ensures var r := CopyWriters(ws, d, fs);
      && r.fs.docs == fs.docs
      && fs.files <= r.fs.files <= fs.files + StoppedTargets(ws, d)
      && fs.dirs <= r.fs.dirs <= fs.dirs + {TargetDir(d)}
      && (!r.failed ==> r.fs.files == fs.files + StoppedTargets(ws, d))
    decreases |ws|
  {
    if ws != [] {
      if ws[0].stopped {
        var o := CopyOne(ws[0], d, fs);
        CopyOneEffect(ws[0], d, fs);
        if !o.failed {
          CopyWritersEffect(ws[1..], d, o.fs);
        }
      } else {
        CopyWritersEffect(ws[1..], d, fs);
      }
    }
  }

  /**
   * The copy succeeds when every finished writer's file exists, the target
   * folder exists (or, outside the legacy case, can be created inside an
   * existing session folder), and no target is a directory or the source
   * file itself.
   */
  lemma {:induction false} CopySucceeds(ws: seq<Writer>, d: Dest, fs: Fs)
    requires forall w :: w in ws && w.stopped ==> w.videoPath in fs.files
    requires TargetDir(d) in fs.dirs || (!ToSessionRoot(d) && d.sessionPath in fs.dirs && TargetDir(d) !in fs.files)
    requires forall w :: w in ws && w.stopped ==> Target(d, w) !in fs.dirs && Target(d, w) != w.videoPath
    ensures !CopyWriters(ws, d, fs).failed
    decreases |ws|
  {
    if ws != [] {
      assert ws[0] in ws;
      assert forall w :: w in ws[1..] ==> w in ws;
      if ws[0].stopped {
        var o := CopyOne(ws[0], d, fs);
        assert |Target(d, ws[0])| > |TargetDir(d)|;
        assert !o.failed && o.fs.files >= fs.files && o.fs.dirs == fs.dirs + {TargetDir(d)};
        forall w | w in ws[1..] && w.stopped
          ensures Target(d, w) !in o.fs.dirs
        {
          assert |Target(d, w)| > |TargetDir(d)|;
        }
        CopySucceeds(ws[1..], d, o.fs);
      } else {
        CopySucceeds(ws[1..], d, fs);
      }
    }
  }

  /**
   * Outside the legacy case, when the session folder does not exist and the
   * video folder is not already a directory, the first finished writer's copy
   * fails and nothing is changed.
   */
  lemma {:induction false} CopyFailsWithoutSessionFolder(ws: seq<Writer>, d: Dest, fs: Fs)
    requires !ToSessionRoot(d) && !Exists(fs, d.sessionPath) && TargetDir(d) !in fs.dirs
    requires exists w :: w in ws && w.stopped
    ensures CopyWriters(ws, d, fs) == Outcome(fs, true)
    decreases |ws|
  {
    if !ws[0].stopped {
      assert exists w :: w in ws[1..] && w.stopped by {
        var w :| w in ws && w.stopped;
        assert w != ws[0];
        assert ws == [ws[0]] + ws[1..];
      }
      CopyFailsWithoutSessionFolder(ws[1..], d, fs);
    }
  }

  /** `Path(p).unlink()` on an existing file. */
  function Unlink(fs: Fs, p: string): Fs
  {
    fs.(files := fs.files - {p}, docs := fs.docs - {p})
  }

  /**
   * The purge loop: each finished writer's file is deleted in order; a file
   * that is already gone raises FileNotFoundError, which ends the loop.
   */
  function PurgeWriters(ws: seq<Writer>, fs: Fs): Outcome
    decreases |ws|
  {
    if ws == [] then Outcome(fs, false)
    else if !ws[0].stopped then PurgeWriters(ws[1..], fs)
    else if ws[0].videoPath in fs.files then PurgeWriters(ws[1..], Unlink(fs, ws[0].videoPath))
    else Outcome(fs, true)
  }

  /**
   * Only finished writers' files are deleted and directories are untouched;
   * a run without error has deleted every one of them, and it has one
   * exactly when each finished writer's file exists when its turn comes.
   */
  lemma {:induction false} PurgeWritersEffect(ws: seq<Writer>, fs: Fs)
    ensures var r := PurgeWriters(ws, fs);
      && r.fs.dirs == fs.dirs
      && fs.files - StoppedPaths(ws) <= r.fs.files <= fs.files
      && (!r.failed ==> r.fs.files == fs.files - StoppedPaths(ws))
      && (!r.failed ==> StoppedPaths(ws) <= fs.files)
    decreases |ws|
  {
    if ws != [] {
      if !ws[0].stopped {
        PurgeWritersEffect(ws[1..], fs);
      } else if ws[0].videoPath in fs.files {
        PurgeWritersEffect(ws[1..], Unlink(fs, ws[0].videoPath));
      }
    }
  }

  /** A writer that has not finished keeps its file, unless a finished writer shares its path. */
  lemma PurgeKeepsUnfinished(ws: seq<Writer>, fs: Fs, w: Writer)
    requires w in ws && !w.stopped && w.videoPath in fs.files && w.videoPath !in StoppedPaths(ws)
    ensures w.videoPath in PurgeWriters(ws, fs).fs.files
  {
    PurgeWritersEffect(ws, fs);
  }

  /** When every finished writer has its own existing file, the purge deletes them all without error. */
  lemma {:induction false} PurgeSucceeds(ws: seq<Writer>, fs: Fs)
    requires forall i :: 0 <= i < |ws| && ws[i].stopped ==> ws[i].videoPath in fs.files
    requires forall i, j :: 0 <= i < j < |ws| && ws[i].stopped && ws[j].stopped ==> ws[i].videoPath != ws[j].videoPath
    ensures !PurgeWriters(ws, fs).failed
    decreases |ws|
  {
    if ws != [] {
      var fs' := if ws[0].stopped then Unlink(fs, ws[0].videoPath) else fs;
      forall i | 0 <= i < |ws[1..]| && ws[1..][i].stopped
        ensures ws[1..][i].videoPath in fs'.files
      {
        assert ws[1..][i] == ws[i + 1];
      }
      PurgeSucceeds(ws[1..], fs');
    }
  }
}
