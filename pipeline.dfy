/** The orchestration in `lib/encoding.py` that chains ffmpeg stages over
    temporary files: `trim_with_hard_subs`, `trim_preset`, `trim_preset_new`,
    and the input removal of `loop_video`. The file system is the set of paths
    that exist; what each external run does is given by an oracle. */
module Pipeline {
  import opened PyStr
  import opened PyPath
  import opened Commands
  import opened Encoding

  /** An ffmpeg run of the orchestrators, by what it does; `Host.Argv` gives
      its command line. */
  datatype Task =
    | ExtractStream(video: string, subtitle: string, channel: string)
    | BurnTrim(start: string, end: string, video: string, output: string, subtitle: string,
               videoChannel: string, audioChannel: string)
    | WebEncode(input: string, output: string)
    | ClipTrim(start: string, length: string, input: string, output: string)
    | FadeEnd(input: string, output: string, seconds: int)
    | LoopInput(input: string, output: string, loops: string)

  /** The file a run writes. */
  function Written(t: Task): string
  {
    match t
    case ExtractStream(_, subtitle, _) => subtitle
    case BurnTrim(_, _, _, output, _, _, _) => output
    case WebEncode(_, output) => Mp4Target(output)
    case ClipTrim(_, _, _, output) => output
    case FadeEnd(_, output, _) => output
    case LoopInput(_, output, _) => output
  }

  /** One observable step, in the order the code takes them: an ffmpeg run, a
      copy, a removal, or the ffprobe run of `get_video_duration` on a file. */
  datatype Event =
    | Ran(task: Task)
    | Copied(src: string, dst: string)
    | Removed(path: string)
    | Probed(file: string)

  /** The exceptions that escape the orchestrators: a missing file for
      `os.remove` or `copyfile`, `shutil.SameFileError`, the
      `CalledProcessError` of a checked run, and the `ValueError` of a clock
      time that does not parse. */
  datatype Error =
    | FileNotFound(path: string)
    | SameFile(path: string)
    | ProcessFailed(task: Task)
    | BadTime

  datatype Status = Done | Raised(error: Error)

  /** What one run of an external program does: whether it exits with status
      zero, and whether it leaves the file it writes behind. */
  datatype Outcome = Outcome(succeeded: bool, writesTarget: bool)

  /** The paths that exist after one event. */
  function Step(files: set<string>, e: Event, outcome: Task -> Outcome): set<string>
  {
    match e
    case Ran(t) => if outcome(t).writesTarget then files + {Written(t)} else files
    case Copied(_, dst) => files + {dst}
    case Removed(path) => files - {path}
    case Probed(_) => files
  }

  /** The paths that exist after a sequence of events. */
  function Apply(files: set<string>, events: seq<Event>, outcome: Task -> Outcome): set<string>
  {
    if events == [] then files
    else Step(Apply(files, events[..|events| - 1], outcome), events[|events| - 1], outcome)
  }

  lemma ApplyStep(files: set<string>, events: seq<Event>, e: Event, outcome: Task -> Outcome)
    ensures Apply(files, events + [e], outcome) == Step(Apply(files, events, outcome), e, outcome)
  {
    assert (events + [e])[..|events|] == events;
  }

  /** Running two sequences of events one after the other. */
  lemma {:induction false} ApplyAppend(files: set<string>, a: seq<Event>, b: seq<Event>, outcome: Task -> Outcome)
    ensures Apply(files, a + b, outcome) == Apply(Apply(files, a, outcome), b, outcome)
    decreases |b|
  {
    if b == [] {
      assert a + b == a;
    } else {
      ApplyAppend(files, a, b[..|b| - 1], outcome);
      assert (a + b)[..|a + b| - 1] == a + b[..|b| - 1];
      assert (a + b)[|a + b| - 1] == b[|b| - 1];
    }
  }

  /** A script made of a done part, a part under way and the rest, cut inside
      the part under way: after any earlier events, the cut is the done part
      followed by the events of the part so far; once the part is over, it
      joins the done part. */
  lemma Cut(t: seq<Event>, s: seq<Event>, pre: seq<Event>, part: seq<Event>, rest: seq<Event>, d: nat)
    requires s == pre + (part + rest) && d <= |part|
    ensures t + s[..|pre| + d] == (t + pre) + part[..d]
    ensures s == (pre + part) + rest
    ensures d == |part| ==> (t + pre) + part[..d] == t + (pre + part)
  {
    assert s[..|pre| + d] == pre + part[..d];
    if d == |part| {
      assert part[..d] == part;
    }
  }

  /** The same for the first part. */
  lemma CutFirst(t: seq<Event>, s: seq<Event>, part: seq<Event>, rest: seq<Event>, d: nat)
    requires s == part + rest && d <= |part|
    ensures t + s[..d] == t + part[..d]
    ensures d == |part| ==> part[..d] == part
  {
    assert s[..d] == part[..d];
  }

  /** The same for the last part. */
  lemma CutLast(t: seq<Event>, s: seq<Event>, pre: seq<Event>, part: seq<Event>, d: nat)
    requires s == pre + part && d <= |part|
    ensures t + s[..|pre| + d] == (t + pre) + part[..d]
  {
    assert s[..|pre| + d] == pre + part[..d];
  }

  /** A run followed by the removal of the file it read. */
  function RunThenRemove(task: Task, temp: string): seq<Event>
  {
    [Ran(task), Removed(temp)]
  }

  /** `str(Path(p))` for a normalised path: the empty path reads as `.`. */
  function PathText(p: string): string
  {
    if p == "" then "." else p
  }

  /** `f"{_output[:len(_output)-4]}.srt"`: the subtitle file `trim_with_hard_subs` works on. */
  function HardSubsTemp(output: string): string
  {
    SliceTo(output, |output| - 4) + ".srt"
  }

  /** The removal of each path in turn. */
  function Removals(paths: seq<string>): (r: seq<Event>)
    ensures |r| == |paths|
  {
    if paths == [] then [] else Removals(paths[..|paths| - 1]) + [Removed(paths[|paths| - 1])]
  }

  lemma RemovalsSnoc(paths: seq<string>, p: string)
    ensures Removals(paths + [p]) == Removals(paths) + [Removed(p)]
  {
    assert (paths + [p])[..|paths|] == paths;
  }

  lemma ApplyCons(files: set<string>, e: Event, rest: seq<Event>, outcome: Task -> Outcome)
    ensures Apply(files, [e] + rest, outcome) == Apply(Step(files, e, outcome), rest, outcome)
  {
    ApplyAppend(files, [e], rest, outcome);
    assert [e][..0] == [];
  }

  // ---------------------------------------------------------------------------
  // How far a script gets: Python's exceptions, step by step
  // ---------------------------------------------------------------------------

  /** How the code guards a step: a run without `check=True` (and any step
      that is not a run), a run with `check=True`, or a checked run that
      `calculate_duration` comes just before, so that trim times that do not
      parse raise `ValueError` before it starts. */
  datatype Guard = Unchecked | Checked | TimedChecked(timesParse: bool)

  /** The exception a step raises, given the paths that exist before it. */
  function Raises(e: Event, g: Guard, files: set<string>, outcome: Task -> Outcome): Option<Error>
  {
    match e
    case Ran(t) =>
      if g.TimedChecked? && !g.timesParse then Some(BadTime)
      else if g != Unchecked && !outcome(t).succeeded then Some(ProcessFailed(t))
      else None
    case Copied(src, dst) =>
      if src !in files then Some(FileNotFound(src))
      else if src == dst then Some(SameFile(src))
      else None
    case Removed(path) => if path !in files then Some(FileNotFound(path)) else None
    case Probed(_) => None
  }

  /** Where a script stops when it is run from `files`: the number of steps
      taken and how it ended. The first step that raises ends it. A failed
      checked run is taken before its `CalledProcessError`; a copy or removal
      that raises, and a `ValueError`, take no step. */
  function Exec(script: seq<Event>, guards: seq<Guard>, files: set<string>, outcome: Task -> Outcome): (r: (nat, Status))
    requires |guards| == |script|
    ensures r.0 <= |script| && (r.1.Done? ==> r.0 == |script|)
  {
    if script == [] then (0, Done)
    else match Raises(script[0], guards[0], files, outcome)
      case Some(err) => (if err.ProcessFailed? then 1 else 0, Raised(err))
      case None =>
        var rest := Exec(script[1..], guards[1..], Step(files, script[0], outcome), outcome);
        (1 + rest.0, rest.1)
  }

  /** The steps that went through without raising: all the steps taken, but
      for a failed checked run, which was taken and raised. */
  function Passed(r: (nat, Status)): int
  {
    if r.1.Raised? && r.1.error.ProcessFailed? then r.0 - 1 else r.0
  }

  /** A script stops at its first step that raises: each step before the stop
      raises nothing from the paths that exist when it starts, and the script
      raises what the step it stops at raises. */
  lemma {:induction false} ExecFirstRaise(script: seq<Event>, guards: seq<Guard>, files: set<string>,
                                          outcome: Task -> Outcome, k: nat)
    requires |guards| == |script|
    ensures var r := Exec(script, guards, files, outcome);
      k < Passed(r) ==> Raises(script[k], guards[k], Apply(files, script[..k], outcome), outcome).None?
    ensures var r := Exec(script, guards, files, outcome);
      r.1.Raised? ==>
        0 <= Passed(r) < |script| &&
        Raises(script[Passed(r)], guards[Passed(r)], Apply(files, script[..Passed(r)], outcome), outcome) == Some(r.1.error)
    decreases |script|
  {
    if script != [] && Raises(script[0], guards[0], files, outcome).None? {
      var f1 := Step(files, script[0], outcome);
      var r := Exec(script, guards, files, outcome);
      var q := Exec(script[1..], guards[1..], f1, outcome);
      assert Passed(r) == 1 + Passed(q);
      if 0 < k <= |script| {
        ExecFirstRaise(script[1..], guards[1..], f1, outcome, k - 1);
        assert script[..k] == [script[0]] + script[1..][..k - 1];
        ApplyCons(files, script[0], script[1..][..k - 1], outcome);
      } else if k == 0 {
        assert script[..0] == [];
      }
      if r.1.Raised? {
        var p := Passed(q);
        ExecFirstRaise(script[1..], guards[1..], f1, outcome, 0);
        assert script[..p + 1] == [script[0]] + script[1..][..p];
        ApplyCons(files, script[0], script[1..][..p], outcome);
      }
    } else if script != [] {
      assert script[..0] == [];
    }
  }

  /** A script whose last step is a checked run and that got as far as that
      run completes exactly when the run succeeded: the fade of both presets
      decides their result. */
  lemma {:induction false} LastCheckedRunDecides(script: seq<Event>, guards: seq<Guard>, files: set<string>, outcome: Task -> Outcome)
    requires |guards| == |script| && 0 < |script|
    requires script[|script| - 1].Ran? && guards[|script| - 1] == Checked
    ensures var r := Exec(script, guards, files, outcome);
      r.0 == |script| ==> (r.1.Done? <==> outcome(script[|script| - 1].task).succeeded)
  {
    var last := |script| - 1;
    ExecFirstRaise(script, guards, files, outcome, last);
  }

  /** Running a script in two parts: the second starts, from the paths the
      first left, only when the first completed. */
  lemma {:induction false} ExecAppend(a: seq<Event>, ga: seq<Guard>, b: seq<Event>, gb: seq<Guard>,
                                      files: set<string>, outcome: Task -> Outcome)
    requires |ga| == |a| && |gb| == |b|
    ensures Exec(a + b, ga + gb, files, outcome) ==
      var r := Exec(a, ga, files, outcome);
      if r.1.Done? then (|a| + Exec(b, gb, Apply(files, a, outcome), outcome).0, Exec(b, gb, Apply(files, a, outcome), outcome).1)
      else r
    decreases |a|
  {
    if a == [] {
      assert a + b == b && ga + gb == gb;
    } else {
      assert (a + b)[0] == a[0] && (a + b)[1..] == a[1..] + b;
      assert (ga + gb)[0] == ga[0] && (ga + gb)[1..] == ga[1..] + gb;
      if Raises(a[0], ga[0], files, outcome).None? {
        var f1 := Step(files, a[0], outcome);
        ExecAppend(a[1..], ga[1..], b, gb, f1, outcome);
        assert [a[0]] + a[1..] == a;
        ApplyCons(files, a[0], a[1..], outcome);
      }
    }
  }

  /** Two checked run-then-remove stages with a probe between them: the second
      starts, from what the first left, only once the first is done. */
  lemma ExecAroundProbe(first: seq<Event>, probed: string, second: seq<Event>, files: set<string>, outcome: Task -> Outcome)
    requires |first| == 2 && |second| == 2
    ensures Exec(first + ([Probed(probed)] + second), RunThenRemoveGuards(true) + ([Unchecked] + RunThenRemoveGuards(true)), files, outcome) ==
      var r := Exec(first, RunThenRemoveGuards(true), files, outcome);
      if r.1.Done? then
        var r2 := Exec(second, RunThenRemoveGuards(true), Apply(files, first, outcome), outcome);
        (3 + r2.0, r2.1)
      else r
  {
    var probe := [Probed(probed)];
    ExecAppend(first, RunThenRemoveGuards(true), probe + second, [Unchecked] + RunThenRemoveGuards(true), files, outcome);
    var f1 := Apply(files, first, outcome);
    ExecAppend(probe, [Unchecked], second, RunThenRemoveGuards(true), f1, outcome);
    assert probe[1..] == [] && [Unchecked][1..] == [];
    assert Apply(f1, probe, outcome) == f1 by { assert probe[..0] == []; }
  }

  /** A run, checked or not, and the removal of the file it read: a failed
      checked run stops it, and otherwise the removal raises exactly when the
      file is missing after the run. */
  lemma ExecRunThenRemove(task: Task, temp: string, checked: bool, files: set<string>, outcome: Task -> Outcome)
    ensures Exec(RunThenRemove(task, temp), RunThenRemoveGuards(checked), files, outcome) ==
      if checked && !outcome(task).succeeded then (1, Raised(ProcessFailed(task)))
      else if temp in Step(files, Ran(task), outcome) then (2, Done)
      else (1, Raised(FileNotFound(temp)))
  {
    var script, g := RunThenRemove(task, temp), RunThenRemoveGuards(checked);
    assert script[1..] == [Removed(temp)] && g[1..] == [Unchecked];
    assert [Removed(temp)][1..] == [] && [Unchecked][1..] == [];
    if !(checked && !outcome(task).succeeded) {
      assert Raises(script[0], g[0], files, outcome).None?;
      var f1 := Step(files, Ran(task), outcome);
      assert Exec([], [], f1 - {temp}, outcome) == (0, Done);
      assert Exec([Removed(temp)], [Unchecked], f1, outcome) ==
        if temp in f1 then (1, Done) else (0, Raised(FileNotFound(temp)));
    }
  }

  /** The guards of `trim_with_hard_subs`: none of its runs is checked. */
  const HardSubsGuards: seq<Guard> := [Unchecked, Unchecked, Unchecked]

  /** The guards of a run, checked or not, and the removal of what it read. */
  function RunThenRemoveGuards(checked: bool): (g: seq<Guard>)
    ensures |g| == 2
  {
    [if checked then Checked else Unchecked, Unchecked]
  }

  /** The guard of the duration trim, which `calculate_duration` precedes. */
  function TimesGuard(trimEnd: string, trimStart: string): Guard
  {
    TimedChecked(CalculateDuration(trimEnd, trimStart).Some?)
  }

  /** The guards of the first stages of `trim_preset`: the hard-subs trim,
      then the checked web encode and the removal of its input. */
  const PresetHeadGuards: seq<Guard> := HardSubsGuards + RunThenRemoveGuards(true)

  /** The guards of the last stages of `trim_preset`: the duration trim,
      guarded by `first`, a removal, the probe, the checked fade, a removal. */
  function PresetTailGuards(first: Guard): (g: seq<Guard>)
    ensures |g| == 5
  {
    [first, Unchecked, Unchecked, Checked, Unchecked]
  }

  /** The guards of the whole of `trim_preset`. */
  function PresetGuards(trimEnd: string, trimStart: string): (g: seq<Guard>)
    ensures |g| == 10
  {
    PresetHeadGuards + PresetTailGuards(TimesGuard(trimEnd, trimStart))
  }

  /** The guards of the `try` block of `trim_preset_new` after the hard-subs
      trim: the duration trim, guarded by `first`, the checked web encode, the
      probe and the checked fade. */
  function NewTailGuards(first: Guard): (g: seq<Guard>)
    ensures |g| == 4
  {
    [first, Checked, Unchecked, Checked]
  }

  /** The guards of the whole `try` block of `trim_preset_new`. */
  function NewGuards(trimEnd: string, trimStart: string): (g: seq<Guard>)
    ensures |g| == 7
  {
    HardSubsGuards + NewTailGuards(TimesGuard(trimEnd, trimStart))
  }

  /** The ffmpeg runs that change the file system and the probe of a clip length. */
  class Host {
    /** The paths that exist. */
    var files: set<string>
    /** Everything done so far, oldest first. */
    var trace: seq<Event>
    /** The paths that existed before the first step. */
    ghost const initial: set<string>
    /** The configured executables, `FFMPEG_PATH` and `FFPROBE_PATH`. */
    const ffmpeg: string
    const ffprobe: string
    /** What each external run does. */
    const outcome: Task -> Outcome
    /** `int(get_video_duration(path))`: the probed length in whole seconds. */
    const seconds: string -> nat

    constructor(ffmpeg: string, ffprobe: string, outcome: Task -> Outcome, seconds: string -> nat,
                files: set<string>)
      ensures this.ffmpeg == ffmpeg && this.ffprobe == ffprobe
      ensures this.outcome == outcome && this.seconds == seconds
      ensures this.files == files && trace == []
      ensures Valid()
    {
      initial := files;
      this.ffmpeg := ffmpeg;
      this.ffprobe := ffprobe;
      this.outcome := outcome;
      this.seconds := seconds;
      this.files := files;
      trace := [];
    }

    /** Step `k` of `script` is a checked run: once it has run, a non-zero
        exit stops the script right after it with its `CalledProcessError`. */
    ghost predicate StopsIfFails(script: seq<Event>, k: nat, done: nat, st: Status)
    {
      k < |script| && script[k].Ran? &&
      (done > k && !outcome(script[k].task).succeeded ==> done == k + 1 && st == Raised(ProcessFailed(script[k].task)))
    }

    /** A `CalledProcessError` is only raised for a run that exited non-zero. */
    ghost predicate FailedIfRaised(st: Status)
    {
      st.Raised? && st.error.ProcessFailed? ==> !outcome(st.error.task).succeeded
    }

    /** A checked step of the later part of a script, seen from the whole
        script: either the script stopped before that part, or the part's own
        stop at that step carries over. */
    lemma StopsShift(pre: seq<Event>, rest: seq<Event>, k: nat, d: nat, done: nat, st: Status)
      requires k < |rest| && rest[k].Ran?
      requires done <= |pre| || (done == |pre| + d && StopsIfFails(rest, k, d, st))
      ensures StopsIfFails(pre + rest, |pre| + k, done, st)
    {
      assert (pre + rest)[|pre| + k] == rest[k];
    }

    /** A checked step of the first part of a script keeps its stop once more
        steps follow. */
    lemma StopsKeep(part: seq<Event>, rest: seq<Event>, k: nat, done: nat, st: Status)
      requires StopsIfFails(part, k, done, st)
      ensures StopsIfFails(part + rest, k, done, st)
    {
      assert (part + rest)[k] == part[k];
    }

    /** The file system is what the steps taken so far made of the initial one. */
    ghost predicate Valid()
      reads this
    {
      files == Apply(initial, trace, outcome)
    }

    /** Once part of a script has been taken from a state that the trace
        explains, the paths are what that part made of that state. */
    lemma FilesAfter(f0: set<string>, t0: seq<Event>, part: seq<Event>)
      requires Valid() && f0 == Apply(initial, t0, outcome) && trace == t0 + part
      ensures files == Apply(f0, part, outcome)
    {
      ApplyAppend(initial, t0, part, outcome);
    }

    // -------------------------------------------------------------------------
    // Primitive steps
    // -------------------------------------------------------------------------

    /** The command line of a run, built by the `lib/encoding.py` builder it
        calls; it ends with the file the run writes. */
    function Argv(t: Task): (r: seq<string>)
      ensures r != [] && Target(r) == Written(t)
    {
      match t
      case ExtractStream(video, subtitle, channel) => ExtractSubtitle(ffmpeg, video, subtitle, channel)
      case BurnTrim(start, end, video, output, subtitle, videoChannel, audioChannel) =>
        Commands.TrimWithHardSubs(ffmpeg, start, end, video, output, subtitle, videoChannel, audioChannel)
      case WebEncode(input, output) => EncodeWebMp4(ffmpeg, input, output)
      case ClipTrim(start, length, input, output) => TrimDuration(ffmpeg, start, length, input, output, "0", "0", "0")
      case FadeEnd(input, output, length) => Fade(ffmpeg, input, output, length)
      case LoopInput(input, output, loops) => Commands.LoopVideo(ffmpeg, input, output, loops)
    }

    /** `subprocess.run(Argv(task))`: the oracle gives the exit status and
        whether the written file appears. */
    method Run(task: Task) returns (ok: bool)
      requires Valid()
      modifies this
      ensures Valid()
      ensures ok == outcome(task).succeeded
      ensures trace == old(trace) + [Ran(task)]
      ensures files == Step(old(files), Ran(task), outcome)
    {
      ApplyStep(initial, trace, Ran(task), outcome);
      var argv := Argv(task);
      ok := outcome(task).succeeded;
      if outcome(task).writesTarget {
        files := files + {Target(argv)};
      }
      trace := trace + [Ran(task)];
    }

    /** `os.remove(path)`: a missing file raises `FileNotFoundError`. */
    method Remove(path: string) returns (st: Status)
      requires Valid()
      modifies this
      ensures Valid()
      ensures path in old(files) ==> st == Done && trace == old(trace) + [Removed(path)] && files == old(files) - {path}
      ensures path !in old(files) ==> st == Raised(FileNotFound(path)) && trace == old(trace) && files == old(files)
    {
      if path !in files {
        return Raised(FileNotFound(path));
      }
      ApplyStep(initial, trace, Removed(path), outcome);
      files := files - {path};
      trace := trace + [Removed(path)];
      st := Done;
    }

    /** `shutil.copyfile(src, dst)`: a missing source is reported before a
        copy onto itself. */
    method CopyFile(src: string, dst: string) returns (st: Status)
      requires Valid()
      modifies this
      ensures Valid()
      ensures src !in old(files) ==> st == Raised(FileNotFound(src)) && trace == old(trace) && files == old(files)
      ensures src in old(files) && src == dst ==> st == Raised(SameFile(src)) && trace == old(trace) && files == old(files)
      ensures src in old(files) && src != dst ==>
        st == Done && trace == old(trace) + [Copied(src, dst)] && files == old(files) + {dst}
    {
      if src !in files {
        return Raised(FileNotFound(src));
      }
      if src == dst {
        return Raised(SameFile(src));
      }
      ApplyStep(initial, trace, Copied(src, dst), outcome);
      files := files + {dst};
      trace := trace + [Copied(src, dst)];
      st := Done;
    }

    /** `int(get_video_duration(path))`: a run of `DurationProbe(ffprobe, path)`
        that only reads. */
    method ProbeSeconds(path: string) returns (s: nat)
      requires Valid()
      modifies this
      ensures Valid()
      ensures s == seconds(path)
      ensures trace == old(trace) + [Probed(path)] && files == old(files)
      ensures files == Step(old(files), Probed(path), outcome)
    {
      ApplyStep(initial, trace, Probed(path), outcome);
      s := seconds(path);
      trace := trace + [Probed(path)];
    }

    // -------------------------------------------------------------------------
    // trim_with_hard_subs (lib/encoding.py:404-475)
    // -------------------------------------------------------------------------

    /** The steps of `trim_with_hard_subs` when nothing goes wrong: obtain the
        subtitle file (extract the internal stream, or copy the external
        file), run the trim with the subtitles burnt in, remove the subtitle file. */
    function HardSubsScript(start: string, end: string, video: string, output: string,
                            videoChannel: string, audioChannel: string, subtitlesChannel: string,
                            subtitles: string): (s: seq<Event>)
      ensures |s| == 3 && s[2] == Removed(HardSubsTemp(output))
    {
      var temp := HardSubsTemp(output);
      [if subtitles == "" then Ran(ExtractStream(video, temp, subtitlesChannel)) else Copied(subtitles, temp)]
      + RunThenRemove(BurnTrim(start, end, video, output, temp, videoChannel, audioChannel), temp)
    }

    /** `trim_with_hard_subs`: an empty `subtitles` selects the internal stream.
        Neither ffmpeg run is checked; a failed copy stops before anything runs,
        and a subtitle file that never appeared makes the final removal raise.
        Whatever happens after the copy, no subtitle file is left behind. */
    method TrimWithHardSubs(start: string, end: string, video: string, output: string,
                            videoChannel: string, audioChannel: string, subtitlesChannel: string,
                            subtitles: string) returns (st: Status, ghost done: nat)
      requires Valid()
      modifies this
      ensures Valid()
      ensures var script := HardSubsScript(start, end, video, output, videoChannel, audioChannel, subtitlesChannel, subtitles);
        done <= 3 && trace == old(trace) + script[..done]
      ensures st.Done? <==> done == 3
      ensures subtitles != "" && subtitles !in old(files) ==> st == Raised(FileNotFound(subtitles)) && done == 0
      ensures subtitles != "" && subtitles in old(files) && subtitles == HardSubsTemp(output) ==>
        st == Raised(SameFile(subtitles)) && done == 0
      ensures st.Raised? && done > 0 ==> st == Raised(FileNotFound(HardSubsTemp(output))) && done == 2
      ensures st.Raised? ==> st.error.FileNotFound? || st.error.SameFile?
      ensures subtitles == "" || (subtitles in old(files) && subtitles != HardSubsTemp(output)) ==> done >= 2
      ensures var script := HardSubsScript(start, end, video, output, videoChannel, audioChannel, subtitlesChannel, subtitles);
        done >= 2 ==> (st.Done? <==> HardSubsTemp(output) in Step(Step(old(files), script[0], outcome), script[1], outcome))
      ensures done > 0 ==> HardSubsTemp(output) !in files
      ensures var script := HardSubsScript(start, end, video, output, videoChannel, audioChannel, subtitlesChannel, subtitles);
        Exec(script, HardSubsGuards, old(files), outcome) == (done, st)
    {
      ghost var t0 := trace;
      ghost var f0 := files;
      ghost var script := HardSubsScript(start, end, video, output, videoChannel, audioChannel, subtitlesChannel, subtitles);
      var tempSubtitle := SliceTo(output, |output| - 4) + ".srt";
      var trimTask := BurnTrim(start, end, video, output, tempSubtitle, videoChannel, audioChannel);
      ghost var obtain := script[0];
      assert script == [obtain] + RunThenRemove(trimTask, tempSubtitle);
      if subtitles == "" {
        var _ := Run(ExtractStream(video, tempSubtitle, subtitlesChannel));
      } else {
        st := CopyFile(subtitles, tempSubtitle);
        if st.Raised? {
          return st, 0;
        }
      }
      ghost var f1 := files;
      ghost var d;
      st, d := RunThenRemoveStage(trimTask, tempSubtitle, false);
      CutLast(t0, script, [obtain], RunThenRemove(trimTask, tempSubtitle), d);
      done := 1 + d;
      assert [obtain][1..] == [] && [Unchecked][1..] == [];
      assert f1 == Apply(f0, [obtain], outcome) by { assert [obtain][..0] == []; }
      ExecAppend([obtain], [Unchecked], RunThenRemove(trimTask, tempSubtitle), RunThenRemoveGuards(false), f0, outcome);
      assert HardSubsGuards == [Unchecked] + RunThenRemoveGuards(false);
    }

    // -------------------------------------------------------------------------
    // trim_preset (lib/encoding.py:692-772)
    // -------------------------------------------------------------------------

    /** The temporary files of `trim_preset`, in the output's directory:
        `basic_<video name>`, `encode_<output name>`, `duration_<output name>`. */
    function PresetTemps(video: string, output: string): (string, string, string)
    {
      var outputDir := OsSplit(output).0;
      (OsJoin(outputDir, "basic_" + OsSplit(video).1),
       OsJoin(outputDir, "encode_" + OsSplit(output).1),
       OsJoin(outputDir, "duration_" + OsSplit(output).1))
    }

    /** The three temporary files of `trim_preset` are three different paths,
        and each sits in the output's directory under its prefixed name. */
    lemma PresetTempsPlace(video: string, output: string)
      ensures var (basic, encode, duration) := PresetTemps(video, output);
        basic != encode && basic != duration && encode != duration
      ensures var (basic, encode, duration) := PresetTemps(video, output);
        var dir := OsSplit(output).0;
        dir != [] && dir[|dir| - 1] != '/' ==>
          OsSplit(basic) == (dir, "basic_" + OsSplit(video).1) &&
          OsSplit(encode) == (dir, "encode_" + OsSplit(output).1) &&
          OsSplit(duration) == (dir, "duration_" + OsSplit(output).1)
    {
      var dir := OsSplit(output).0;
      var b, e, d := "basic_" + OsSplit(video).1, "encode_" + OsSplit(output).1, "duration_" + OsSplit(output).1;
      assert b[0] == 'b' && e[0] == 'e' && d[0] == 'd';
      JoinApart(dir, b, e);
      JoinApart(dir, b, d);
      JoinApart(dir, e, d);
      if dir != [] && dir[|dir| - 1] != '/' {
        SplitTailHasNoSlash(video);
        SplitTailHasNoSlash(output);
        assert '/' !in b && '/' !in e && '/' !in d;
        SplitOfJoin(dir, b);
        SplitOfJoin(dir, e);
        SplitOfJoin(dir, d);
      }
    }

    /** The first stage of both presets: the hard-subs trim into `basic`, from
        the external subtitle file when the status mentions `external`, and from
        the selected internal stream otherwise. */
    function PresetHardSubs(video: string, subtitles: string, basic: string, trimStart: string, trimEnd: string,
                            subtitlesStatus: string, audioChannel: string, subtitlesChannel: string): (s: seq<Event>)
      ensures |s| == 3
    {
      var (channel, file) := SubtitleSource(subtitles, subtitlesStatus, subtitlesChannel);
      HardSubsScript(trimStart, trimEnd, video, basic, "0", audioChannel, channel, file)
    }

    /** The hard-subs stage of both presets: `trim_with_hard_subs` on the
        subtitle source the status selects, stated on `PresetHardSubs` only. */
    method HardSubsStage(video: string, subtitles: string, basic: string, trimStart: string, trimEnd: string,
                         subtitlesStatus: string, audioChannel: string, subtitlesChannel: string)
      returns (st: Status, ghost done: nat)
      requires Valid()
      modifies this
      ensures Valid()
      ensures var hard := PresetHardSubs(video, subtitles, basic, trimStart, trimEnd, subtitlesStatus, audioChannel, subtitlesChannel);
        done <= 3 && trace == old(trace) + hard[..done]
      ensures st.Done? <==> done == 3
      ensures st.Raised? ==> st.error.FileNotFound? || st.error.SameFile?
      ensures var hard := PresetHardSubs(video, subtitles, basic, trimStart, trimEnd, subtitlesStatus, audioChannel, subtitlesChannel);
        Exec(hard, HardSubsGuards, old(files), outcome) == (done, st)
    {
      var (channel, file) := SubtitleSource(subtitles, subtitlesStatus, subtitlesChannel);
      st, done := TrimWithHardSubs(trimStart, trimEnd, video, basic, "0", audioChannel, channel, file);
    }

    /** The subtitle stream and file handed to `trim_with_hard_subs`: stream
        `0` of the external file, or the selected internal stream and no file. */
    function SubtitleSource(subtitles: string, subtitlesStatus: string, subtitlesChannel: string): (string, string)
    {
      if Contains(subtitlesStatus, "external") then ("0", subtitles) else (subtitlesChannel, "")
    }

    /** The clip length handed to `trim_duration`; only used once it parsed. */
    function DurationText(trimEnd: string, trimStart: string): string
    {
      match CalculateDuration(trimEnd, trimStart)
      case Some(d) => d
      case None => ""
    }

    /** The steps of `trim_preset` when nothing goes wrong:
        `PresetHeadScript`, then `PresetTailScript`, fading into `outputCleaned`,
        which `TrimPreset` sets to `CleanText(output)`. */
    function PresetScript(video: string, subtitles: string, output: string, outputCleaned: string, trimStart: string, trimEnd: string,
                          subtitlesStatus: string, audioChannel: string, subtitlesChannel: string): (s: seq<Event>)
      ensures |s| == 10
    {
      var (basic, encode, duration) := PresetTemps(video, output);
      PresetHeadScript(video, subtitles, output, trimStart, trimEnd, subtitlesStatus, audioChannel, subtitlesChannel)
      + PresetTailScript(encode, duration, outputCleaned, DurationText(trimEnd, trimStart))
    }

    /** The first stages of `trim_preset`: hard-subs trim into `basic`, web
        encode of `basic` into `encode`, removal of `basic`. */
    function PresetHeadScript(video: string, subtitles: string, output: string, trimStart: string, trimEnd: string,
                              subtitlesStatus: string, audioChannel: string, subtitlesChannel: string): (s: seq<Event>)
      ensures |s| == 5
    {
      var (basic, encode, _) := PresetTemps(video, output);
      PresetHardSubs(video, subtitles, basic, trimStart, trimEnd, subtitlesStatus, audioChannel, subtitlesChannel)
      + RunThenRemove(WebEncode(basic, encode), basic)
    }

    /** The last stages of `trim_preset`: duration trim of `encode` into
        `duration`, removal of `encode`, probe of the length, fade into the
        cleaned output, removal of `duration`. */
    function PresetTailScript(encode: string, duration: string, outputCleaned: string, clipLength: string): (s: seq<Event>)
      ensures |s| == 5 && s[0].Ran? && s[3].Ran?
    {
      RunThenRemove(ClipTrim("00:00:00", clipLength, encode, duration), encode)
      + ([Probed(duration)] + RunThenRemove(FadeEnd(duration, outputCleaned, seconds(duration)), duration))
    }

    /** A run of `task`, checked (`check=True`) or not, and, unless a checked
        run failed, the removal of the file it read; either step may raise. */
    method RunThenRemoveStage(task: Task, temp: string, checked: bool) returns (st: Status, ghost done: nat)
      requires Valid()
      modifies this
      ensures Valid()
      ensures done <= 2 && trace == old(trace) + RunThenRemove(task, temp)[..done]
      ensures st.Done? <==> done == 2
      ensures st == Raised(ProcessFailed(task)) <==> checked && !outcome(task).succeeded
      ensures st.Raised? ==> done == 1 && (st == Raised(ProcessFailed(task)) || st == Raised(FileNotFound(temp)))
      ensures !checked || outcome(task).succeeded ==> (st.Done? <==> temp in Step(old(files), Ran(task), outcome))
      ensures !checked ==> temp !in files
      ensures Exec(RunThenRemove(task, temp), RunThenRemoveGuards(checked), old(files), outcome) == (done, st)
    {
      ghost var script := RunThenRemove(task, temp);
      assert script[..1] == [Ran(task)] && script[..2] == script;
      ExecRunThenRemove(task, temp, checked, files, outcome);
      var ok := Run(task);
      if checked && !ok {
        return Raised(ProcessFailed(task)), 1;
      }
      st := Remove(temp);
      if st.Done? {
        done := 2;
      } else {
        done := 1;
      }
    }

    /** The stages of `trim_preset` after the web encode, each stopping the
        preset at the first exception. */
    method PresetTail(encode: string, duration: string, outputCleaned: string, clipLength: string)
      returns (st: Status, ghost done: nat)
      requires Valid()
      modifies this
      ensures Valid()
      ensures var script := PresetTailScript(encode, duration, outputCleaned, clipLength);
        done <= 5 && trace == old(trace) + script[..done]
      ensures st.Done? <==> done == 5
      ensures st.Raised? ==> (done == 1 || done == 4) && (st.error.ProcessFailed? || st.error.FileNotFound?)
      ensures var script := PresetTailScript(encode, duration, outputCleaned, clipLength);
        StopsIfFails(script, 0, done, st) && StopsIfFails(script, 3, done, st) && FailedIfRaised(st)
      ensures Exec(PresetTailScript(encode, duration, outputCleaned, clipLength), PresetTailGuards(Checked), old(files), outcome) == (done, st)
    {
      ghost var t0 := trace;
      ghost var f0 := files;
      ghost var script := PresetTailScript(encode, duration, outputCleaned, clipLength);
      ghost var trimStage := RunThenRemove(ClipTrim("00:00:00", clipLength, encode, duration), encode);
      ghost var probe := Probed(duration);
      ghost var fadeStage := RunThenRemove(FadeEnd(duration, outputCleaned, seconds(duration)), duration);
      assert script == trimStage + ([probe] + fadeStage);
      ghost var trimDone, fadeDone;
      var trimSt, fadeSt;
      trimSt, trimDone := RunThenRemoveStage(ClipTrim("00:00:00", clipLength, encode, duration), encode, true);
      CutFirst(t0, script, trimStage, [probe] + fadeStage, trimDone);
      st, done := trimSt, trimDone;
      fadeSt, fadeDone := Done, 2;
      assert PresetTailGuards(Checked) == RunThenRemoveGuards(true) + ([Unchecked] + RunThenRemoveGuards(true));
      ExecAroundProbe(trimStage, duration, fadeStage, f0, outcome);
      if trimSt.Done? {
        FilesAfter(f0, t0, trimStage);
        var videoDurationSeconds := ProbeSeconds(duration);
        Cut(t0, script, trimStage, [probe], fadeStage, 1);
        assert [probe][..1] == [probe];
        ghost var pre := trimStage + [probe];
        fadeSt, fadeDone := RunThenRemoveStage(FadeEnd(duration, outputCleaned, videoDurationSeconds), duration, true);
        CutLast(t0, script, pre, fadeStage, fadeDone);
        st, done := fadeSt, 3 + fadeDone;
      }
    }

    /** The stages of `trim_preset` up to the web encode, each stopping the
        preset at the first exception. */
    method PresetHead(video: string, subtitles: string, output: string, trimStart: string, trimEnd: string,
                      subtitlesStatus: string, audioChannel: string, subtitlesChannel: string)
      returns (st: Status, ghost done: nat)
      requires Valid()
      modifies this
      ensures Valid()
      ensures var script := PresetHeadScript(video, subtitles, output, trimStart, trimEnd, subtitlesStatus, audioChannel, subtitlesChannel);
        done <= 5 && trace == old(trace) + script[..done]
      ensures st.Done? <==> done == 5
      ensures st.Raised? ==> done <= 4 && (st.error.ProcessFailed? ==> done == 4) && st.error != BadTime
      ensures var script := PresetHeadScript(video, subtitles, output, trimStart, trimEnd, subtitlesStatus, audioChannel, subtitlesChannel);
        StopsIfFails(script, 3, done, st) && FailedIfRaised(st)
      ensures var script := PresetHeadScript(video, subtitles, output, trimStart, trimEnd, subtitlesStatus, audioChannel, subtitlesChannel);
        Exec(script, PresetHeadGuards, old(files), outcome) == (done, st)
    {
      ghost var t0 := trace;
      ghost var f0 := files;
      ghost var script := PresetHeadScript(video, subtitles, output, trimStart, trimEnd, subtitlesStatus, audioChannel, subtitlesChannel);
      var (inputBasePath, inputFileName) := OsSplit(video);
      var (outputBasePath, outputFileName) := OsSplit(output);
      var tempTrimOutput := OsJoin(outputBasePath, "basic_" + inputFileName);
      var tempMp4Output := OsJoin(outputBasePath, "encode_" + outputFileName);
      ghost var hard := PresetHardSubs(video, subtitles, tempTrimOutput, trimStart, trimEnd, subtitlesStatus, audioChannel, subtitlesChannel);
      ghost var encodeStage := RunThenRemove(WebEncode(tempTrimOutput, tempMp4Output), tempTrimOutput);
      assert script == hard + encodeStage;
      ghost var d;
      st, d := HardSubsStage(video, subtitles, tempTrimOutput, trimStart, trimEnd, subtitlesStatus, audioChannel, subtitlesChannel);
      CutFirst(t0, script, hard, encodeStage, d);
      done := d;
      ExecAppend(hard, HardSubsGuards, encodeStage, RunThenRemoveGuards(true), f0, outcome);
      if st.Raised? {
        return;
      }
      FilesAfter(f0, t0, hard);

      st, d := RunThenRemoveStage(WebEncode(tempTrimOutput, tempMp4Output), tempTrimOutput, true);
      CutLast(t0, script, hard, encodeStage, d);
      done := 3 + d;
    }

    /** `trim_preset`: the stages run in the order of `PresetScript` and stop
        at the first exception, so each temporary file is removed only once the
        stage that reads it has succeeded, and nothing is cleaned up on a raise. */
    method TrimPreset(video: string, subtitles: string, output: string, trimStart: string, trimEnd: string,
                      subtitlesStatus: string, audioChannel: string, subtitlesChannel: string)
      returns (st: Status, ghost done: nat)
      requires Valid()
      modifies this
      ensures Valid()
      ensures var script := PresetScript(video, subtitles, output, CleanText(output), trimStart, trimEnd, subtitlesStatus, audioChannel, subtitlesChannel);
        done <= 10 && trace == old(trace) + script[..done]
      ensures st.Done? <==> done == 10
      ensures st.Raised? && st.error.ProcessFailed? ==> (done == 4 || done == 6 || done == 9)
      ensures st == Raised(BadTime) <==> done == 5 && !st.Done?
      ensures CalculateDuration(trimEnd, trimStart).None? ==> done <= 5 && st.Raised?
      ensures var script := PresetScript(video, subtitles, output, CleanText(output), trimStart, trimEnd, subtitlesStatus, audioChannel, subtitlesChannel);
        StopsIfFails(script, 3, done, st) && StopsIfFails(script, 5, done, st) && StopsIfFails(script, 8, done, st)
      ensures FailedIfRaised(st)
      ensures var script := PresetScript(video, subtitles, output, CleanText(output), trimStart, trimEnd, subtitlesStatus, audioChannel, subtitlesChannel);
        Exec(script, PresetGuards(trimEnd, trimStart), old(files), outcome) == (done, st)
    {
      ghost var t0 := trace;
      ghost var f0 := files;
      ghost var temps := PresetTemps(video, output);
      ghost var head := PresetHeadScript(video, subtitles, output, trimStart, trimEnd, subtitlesStatus, audioChannel, subtitlesChannel);
      ghost var tail := PresetTailScript(temps.1, temps.2, CleanText(output), DurationText(trimEnd, trimStart));
      ghost var script := PresetScript(video, subtitles, output, CleanText(output), trimStart, trimEnd, subtitlesStatus, audioChannel, subtitlesChannel);
      assert script == head + tail;
      ExecAppend(head, PresetHeadGuards, tail, PresetTailGuards(TimesGuard(trimEnd, trimStart)), f0, outcome);
      st, done := PresetStart(video, subtitles, output, CleanText(output), trimStart, trimEnd, subtitlesStatus, audioChannel, subtitlesChannel);
      if st.Raised? {
        return;
      }
      assert script[..5] == head;
      FilesAfter(f0, t0, head);
      st, done := PresetFinish(video, subtitles, output, CleanText(output), trimStart, trimEnd, subtitlesStatus, audioChannel, subtitlesChannel, t0);
    }

    /** The stages of `TrimPreset` up to the web encode, as a prefix of the
        whole preset. */
    method PresetStart(video: string, subtitles: string, output: string, ghost outputCleaned: string, trimStart: string, trimEnd: string,
                       subtitlesStatus: string, audioChannel: string, subtitlesChannel: string)
      returns (st: Status, ghost done: nat)
      requires Valid()
      modifies this
      ensures Valid()
      ensures var script := PresetScript(video, subtitles, output, outputCleaned, trimStart, trimEnd, subtitlesStatus, audioChannel, subtitlesChannel);
        done <= 5 && trace == old(trace) + script[..done]
      ensures st.Done? <==> done == 5
      ensures st.Raised? ==> done <= 4 && (st.error.ProcessFailed? ==> done == 4) && st.error != BadTime
      ensures var script := PresetScript(video, subtitles, output, outputCleaned, trimStart, trimEnd, subtitlesStatus, audioChannel, subtitlesChannel);
        StopsIfFails(script, 3, done, st) && StopsIfFails(script, 5, done, st) && StopsIfFails(script, 8, done, st)
      ensures FailedIfRaised(st)
      ensures var head := PresetHeadScript(video, subtitles, output, trimStart, trimEnd, subtitlesStatus, audioChannel, subtitlesChannel);
        Exec(head, PresetHeadGuards, old(files), outcome) == (done, st)
    {
      ghost var t0 := trace;
      ghost var script := PresetScript(video, subtitles, output, outputCleaned, trimStart, trimEnd, subtitlesStatus, audioChannel, subtitlesChannel);
      var (_, outputFileName) := OsSplit(output);
      var outputBasePath := OsSplit(output).0;
      var tempMp4Output := OsJoin(outputBasePath, "encode_" + outputFileName);
      var tempDurationOutput := OsJoin(outputBasePath, "duration_" + outputFileName);
      ghost var head := PresetHeadScript(video, subtitles, output, trimStart, trimEnd, subtitlesStatus, audioChannel, subtitlesChannel);
      ghost var tail := PresetTailScript(tempMp4Output, tempDurationOutput, outputCleaned, DurationText(trimEnd, trimStart));
      assert script == head + tail;
      st, done := PresetHead(video, subtitles, output, trimStart, trimEnd, subtitlesStatus, audioChannel, subtitlesChannel);
      CutFirst(t0, script, head, tail, done);
      StopsKeep(head, tail, 3, done, st);
      StopsShift(head, tail, 0, 0, done, st);
      StopsShift(head, tail, 3, 0, done, st);
    }

    /** The stages of `TrimPreset` after a web encode that did not raise. */
    method PresetFinish(video: string, subtitles: string, output: string, outputCleaned: string, trimStart: string, trimEnd: string,
                        subtitlesStatus: string, audioChannel: string, subtitlesChannel: string, ghost t0: seq<Event>)
      returns (st: Status, ghost done: nat)
      requires Valid()
      requires var script := PresetScript(video, subtitles, output, outputCleaned, trimStart, trimEnd, subtitlesStatus, audioChannel, subtitlesChannel);
        trace == t0 + script[..5] && StopsIfFails(script, 3, 5, Done)
      modifies this
      ensures Valid()
      ensures var script := PresetScript(video, subtitles, output, outputCleaned, trimStart, trimEnd, subtitlesStatus, audioChannel, subtitlesChannel);
        5 <= done <= 10 && trace == t0 + script[..done]
      ensures st.Done? <==> done == 10
      ensures st.Raised? && st.error.ProcessFailed? ==> (done == 6 || done == 9)
      ensures st == Raised(BadTime) <==> done == 5
      ensures CalculateDuration(trimEnd, trimStart).None? ==> done == 5 && st.Raised?
      ensures var script := PresetScript(video, subtitles, output, outputCleaned, trimStart, trimEnd, subtitlesStatus, audioChannel, subtitlesChannel);
        StopsIfFails(script, 3, done, st) && StopsIfFails(script, 5, done, st) && StopsIfFails(script, 8, done, st)
      ensures FailedIfRaised(st)
      ensures var temps := PresetTemps(video, output);
        var tail := PresetTailScript(temps.1, temps.2, outputCleaned, DurationText(trimEnd, trimStart));
        Exec(tail, PresetTailGuards(TimesGuard(trimEnd, trimStart)), old(files), outcome) == (done - 5, st)
    {
      ghost var script := PresetScript(video, subtitles, output, outputCleaned, trimStart, trimEnd, subtitlesStatus, audioChannel, subtitlesChannel);
      var (_, outputFileName) := OsSplit(output);
      var outputBasePath := OsSplit(output).0;
      var tempMp4Output := OsJoin(outputBasePath, "encode_" + outputFileName);
      var tempDurationOutput := OsJoin(outputBasePath, "duration_" + outputFileName);
      ghost var head := PresetHeadScript(video, subtitles, output, trimStart, trimEnd, subtitlesStatus, audioChannel, subtitlesChannel);
      ghost var tail := PresetTailScript(tempMp4Output, tempDurationOutput, outputCleaned, DurationText(trimEnd, trimStart));
      assert script == head + tail;
      CutFirst(t0, script, head, tail, 5);
      ghost var d;
      st, d := PresetRest(tempMp4Output, tempDurationOutput, outputCleaned, trimEnd, trimStart);
      CutLast(t0, script, head, tail, d);
      done := 5 + d;
      StopsShift(head, tail, 0, d, done, st);
      StopsShift(head, tail, 3, d, done, st);
    }

    /** What `trim_preset` does once the web encode is done: compute the clip
        length, which raises `ValueError` on a time that does not parse, then
        the last stages. */
    method PresetRest(encode: string, duration: string, outputCleaned: string, trimEnd: string, trimStart: string)
      returns (st: Status, ghost done: nat)
      requires Valid()
      modifies this
      ensures Valid()
      ensures var script := PresetTailScript(encode, duration, outputCleaned, DurationText(trimEnd, trimStart));
        done <= 5 && trace == old(trace) + script[..done]
      ensures st.Done? <==> done == 5
      ensures st == Raised(BadTime) <==> CalculateDuration(trimEnd, trimStart).None?
      ensures st == Raised(BadTime) ==> done == 0
      ensures st.Raised? && st != Raised(BadTime) ==> (done == 1 || done == 4) && (st.error.ProcessFailed? || st.error.FileNotFound?)
      ensures var script := PresetTailScript(encode, duration, outputCleaned, DurationText(trimEnd, trimStart));
        StopsIfFails(script, 0, done, st) && StopsIfFails(script, 3, done, st) && FailedIfRaised(st)
      ensures var script := PresetTailScript(encode, duration, outputCleaned, DurationText(trimEnd, trimStart));
        Exec(script, PresetTailGuards(TimesGuard(trimEnd, trimStart)), old(files), outcome) == (done, st)
    {
      var videoDuration := CalculateDuration(trimEnd, trimStart);
      ghost var script := PresetTailScript(encode, duration, outputCleaned, DurationText(trimEnd, trimStart));
      assert PresetTailGuards(TimesGuard(trimEnd, trimStart))[1..] == PresetTailGuards(Checked)[1..];
      if videoDuration.None? {
        return Raised(BadTime), 0;
      }
      st, done := PresetTail(encode, duration, outputCleaned, videoDuration.value);
    }

    // -------------------------------------------------------------------------
    // trim_preset_new (lib/encoding.py:775-855)
    // -------------------------------------------------------------------------

    /** The temporary files of `trim_preset_new`, beside the output:
        `basic_<video name>`, `duration_<video name>`, `encoded_<output name>`. */
    function NewTemps(video: string, output: string): (string, string, string)
    {
      var dir := Parent(output);
      (Child(dir, "basic_" + Name(video)), Child(dir, "duration_" + Name(video)), Child(dir, "encoded_" + Name(output)))
    }

    /** The three temporary files of `trim_preset_new` are three different
        paths, and each sits beside the output under its prefixed name. */
    lemma NewTempsPlace(video: string, output: string)
      ensures var (basic, duration, encoded) := NewTemps(video, output);
        basic != duration && basic != encoded && duration != encoded
      ensures var (basic, duration, encoded) := NewTemps(video, output);
        NormalDir(Parent(output)) ==>
          Parent(basic) == Parent(output) && Name(basic) == "basic_" + Name(video) &&
          Parent(duration) == Parent(output) && Name(duration) == "duration_" + Name(video) &&
          Parent(encoded) == Parent(output) && Name(encoded) == "encoded_" + Name(output)
    {
      var dir := Parent(output);
      var b, d, e := "basic_" + Name(video), "duration_" + Name(video), "encoded_" + Name(output);
      assert b[0] == 'b' && d[0] == 'd' && e[0] == 'e';
      ChildApart(dir, b, d);
      ChildApart(dir, b, e);
      ChildApart(dir, d, e);
      if NormalDir(dir) {
        assert '/' !in b && '/' !in d && '/' !in e;
        ChildParts(dir, b);
        ChildParts(dir, d);
        ChildParts(dir, e);
      }
    }

    /** The steps of the `try` block of `trim_preset_new` when nothing goes
        wrong: the hard-subs trim into `basic`, then `NewTailScript`, fading
        into `outputCleaned`, which `TrimPresetNew` sets to the cleaned output. */
    function NewScript(video: string, subtitles: string, output: string, outputCleaned: string, trimStart: string, trimEnd: string,
                       subtitlesStatus: string, audioChannel: string, subtitlesChannel: string): (s: seq<Event>)
      ensures |s| == 7
    {
      var (basic, duration, encoded) := NewTemps(video, output);
      PresetHardSubs(PathText(video), PathText(subtitles), basic, trimStart, trimEnd, subtitlesStatus, audioChannel, subtitlesChannel)
      + NewTailScript(ClipTrim("00:00:00", DurationText(trimEnd, trimStart), basic, duration),
                      WebEncode(duration, encoded), encoded, outputCleaned)
    }

    /** The checked duration trim and web encode, the probe of the encoded
        clip's length, and the checked fade into the cleaned output. */
    function NewTailScript(trimTask: Task, encodeTask: Task, encoded: string, outputCleaned: string): (s: seq<Event>)
      ensures |s| == 4 && s[0].Ran? && s[1].Ran? && s[3].Ran?
    {
      [Ran(trimTask), Ran(encodeTask), Probed(encoded), Ran(FadeEnd(encoded, outputCleaned, seconds(encoded)))]
    }

    /** A run with `check=True`: a non-zero exit raises `CalledProcessError`. */
    method RunChecked(task: Task) returns (st: Status)
      requires Valid()
      modifies this
      ensures Valid()
      ensures st == (if outcome(task).succeeded then Done else Raised(ProcessFailed(task)))
      ensures trace == old(trace) + [Ran(task)]
      ensures files == Step(old(files), Ran(task), outcome)
    {
      var ok := Run(task);
      st := if ok then Done else Raised(ProcessFailed(task));
    }

    /** Two checked runs, the second only when the first succeeds. */
    method RunCheckedPair(first: Task, second: Task) returns (st: Status, ghost done: nat)
      requires Valid()
      modifies this
      ensures Valid()
      ensures done <= 2 && trace == old(trace) + [Ran(first), Ran(second)][..done]
      ensures !outcome(first).succeeded ==> done == 1 && st == Raised(ProcessFailed(first))
      ensures outcome(first).succeeded ==>
        done == 2 && st == (if outcome(second).succeeded then Done else Raised(ProcessFailed(second)))
      ensures Exec([Ran(first), Ran(second)], [Checked, Checked], old(files), outcome) == (done, st)
    {
      ghost var script := [Ran(first), Ran(second)];
      ghost var f0 := files;
      assert script[1..] == [Ran(second)] && [Checked, Checked][1..] == [Checked];
      assert [Ran(second)][1..] == [] && [Checked][1..] == [];
      assert script[..1] == [Ran(first)] && script[..2] == script;
      var ok := Run(first);
      if !ok {
        return Raised(ProcessFailed(first)), 1;
      }
      ghost var f1 := files;
      ok := Run(second);
      st := if ok then Done else Raised(ProcessFailed(second));
      done := 2;
      assert Exec([Ran(second)], [Checked], f1, outcome) == (1, st);
    }

    /** The probe of the encoded clip's length, then the checked fade run
        over that length into the cleaned output. */
    method ProbeThenFade(encoded: string, outputCleaned: string) returns (st: Status)
      requires Valid()
      modifies this
      ensures Valid()
      ensures var fade := FadeEnd(encoded, outputCleaned, seconds(encoded));
        && trace == old(trace) + [Probed(encoded), Ran(fade)]
        && st == (if outcome(fade).succeeded then Done else Raised(ProcessFailed(fade)))
      ensures var fade := FadeEnd(encoded, outputCleaned, seconds(encoded));
        Exec([Probed(encoded), Ran(fade)], [Unchecked, Checked], old(files), outcome) == (2, st)
    {
      ghost var f0 := files;
      var videoDurationSeconds := ProbeSeconds(encoded);
      ghost var probe := Probed(encoded);
      var fade := FadeEnd(encoded, outputCleaned, videoDurationSeconds);
      st := RunChecked(fade);
      assert [Probed(encoded), Ran(fade)][1..] == [Ran(fade)] && [Unchecked, Checked][1..] == [Checked];
      assert [Ran(fade)][1..] == [] && [Checked][1..] == [];
      assert Exec([Ran(fade)], [Checked], f0, outcome) == (1, st);
    }

    /** The stages of the `try` block after the duration is known, stopping
        at the first failed run. */
    method NewTail(trimTask: Task, encodeTask: Task, encoded: string, outputCleaned: string)
      returns (st: Status, ghost done: nat)
      requires Valid()
      modifies this
      ensures Valid()
      ensures var script := NewTailScript(trimTask, encodeTask, encoded, outputCleaned);
        done <= 4 && trace == old(trace) + script[..done]
      ensures !outcome(trimTask).succeeded ==> done == 1 && st == Raised(ProcessFailed(trimTask))
      ensures outcome(trimTask).succeeded && !outcome(encodeTask).succeeded ==>
        done == 2 && st == Raised(ProcessFailed(encodeTask))
      ensures outcome(trimTask).succeeded && outcome(encodeTask).succeeded ==>
        var fade := FadeEnd(encoded, outputCleaned, seconds(encoded));
        done == 4 && st == (if outcome(fade).succeeded then Done else Raised(ProcessFailed(fade)))
      ensures Exec(NewTailScript(trimTask, encodeTask, encoded, outputCleaned), NewTailGuards(Checked), old(files), outcome) == (done, st)
    {
      ghost var t0 := trace;
      ghost var f0 := files;
      ghost var script := NewTailScript(trimTask, encodeTask, encoded, outputCleaned);
      ghost var fadeStage := [Probed(encoded), Ran(FadeEnd(encoded, outputCleaned, seconds(encoded)))];
      assert script == [Ran(trimTask), Ran(encodeTask)] + fadeStage;
      ghost var d;
      st, d := RunCheckedPair(trimTask, encodeTask);
      CutFirst(t0, script, [Ran(trimTask), Ran(encodeTask)], fadeStage, d);
      done := d;
      assert NewTailGuards(Checked) == [Checked, Checked] + [Unchecked, Checked];
      ExecAppend([Ran(trimTask), Ran(encodeTask)], [Checked, Checked], fadeStage, [Unchecked, Checked], f0, outcome);
      if st.Raised? {
        return;
      }
      FilesAfter(f0, t0, [Ran(trimTask), Ran(encodeTask)]);
      st := ProbeThenFade(encoded, outputCleaned);
      CutLast(t0, script, [Ran(trimTask), Ran(encodeTask)], fadeStage, 2);
      assert fadeStage[..2] == fadeStage;
      done := 4;
    }

    /** The `try` block of `trim_preset_new`, stopping at the first exception. */
    method NewStages(video: string, subtitles: string, output: string, outputCleaned: string, trimStart: string, trimEnd: string,
                     subtitlesStatus: string, audioChannel: string, subtitlesChannel: string)
      returns (st: Status, ghost done: nat)
      requires Valid()
      modifies this
      ensures Valid()
      ensures var script := NewScript(video, subtitles, output, outputCleaned, trimStart, trimEnd, subtitlesStatus, audioChannel, subtitlesChannel);
        done <= 7 && trace == old(trace) + script[..done]
      ensures st.Done? ==> done == 7
      ensures st == Raised(BadTime) <==> done == 3 && !st.Done?
      ensures st.Raised? && st.error.ProcessFailed? ==> (done == 4 || done == 5 || done == 7)
      ensures CalculateDuration(trimEnd, trimStart).None? ==> done <= 3 && st.Raised?
      ensures var script := NewScript(video, subtitles, output, outputCleaned, trimStart, trimEnd, subtitlesStatus, audioChannel, subtitlesChannel);
        StopsIfFails(script, 3, done, st) && StopsIfFails(script, 4, done, st) && StopsIfFails(script, 6, done, st)
      ensures FailedIfRaised(st)
      ensures var script := NewScript(video, subtitles, output, outputCleaned, trimStart, trimEnd, subtitlesStatus, audioChannel, subtitlesChannel);
        Exec(script, NewGuards(trimEnd, trimStart), old(files), outcome) == (done, st)
    {
      ghost var t0 := trace;
      ghost var f0 := files;
      ghost var temps := NewTemps(video, output);
      ghost var hard := PresetHardSubs(PathText(video), PathText(subtitles), temps.0, trimStart, trimEnd, subtitlesStatus, audioChannel, subtitlesChannel);
      ghost var tail := NewTailScript(ClipTrim("00:00:00", DurationText(trimEnd, trimStart), temps.0, temps.1),
                                      WebEncode(temps.1, temps.2), temps.2, outputCleaned);
      ghost var script := NewScript(video, subtitles, output, outputCleaned, trimStart, trimEnd, subtitlesStatus, audioChannel, subtitlesChannel);
      assert script == hard + tail;
      ExecAppend(hard, HardSubsGuards, tail, NewTailGuards(TimesGuard(trimEnd, trimStart)), f0, outcome);
      st, done := NewHead(video, subtitles, output, outputCleaned, trimStart, trimEnd, subtitlesStatus, audioChannel, subtitlesChannel);
      if st.Raised? {
        return;
      }
      assert script[..3] == hard;
      FilesAfter(f0, t0, hard);
      st, done := NewFinish(video, subtitles, output, outputCleaned, trimStart, trimEnd, subtitlesStatus, audioChannel, subtitlesChannel, t0);
    }

    /** The stages of `NewStages` after a hard-subs trim that did not raise. */
    method NewFinish(video: string, subtitles: string, output: string, outputCleaned: string, trimStart: string, trimEnd: string,
                     subtitlesStatus: string, audioChannel: string, subtitlesChannel: string, ghost t0: seq<Event>)
      returns (st: Status, ghost done: nat)
      requires Valid()
      requires var script := NewScript(video, subtitles, output, outputCleaned, trimStart, trimEnd, subtitlesStatus, audioChannel, subtitlesChannel);
        trace == t0 + script[..3]
      modifies this
      ensures Valid()
      ensures var script := NewScript(video, subtitles, output, outputCleaned, trimStart, trimEnd, subtitlesStatus, audioChannel, subtitlesChannel);
        3 <= done <= 7 && trace == t0 + script[..done]
      ensures st.Done? ==> done == 7
      ensures st == Raised(BadTime) <==> done == 3
      ensures st.Raised? && st.error.ProcessFailed? ==> (done == 4 || done == 5 || done == 7)
      ensures CalculateDuration(trimEnd, trimStart).None? ==> done == 3 && st.Raised?
      ensures var script := NewScript(video, subtitles, output, outputCleaned, trimStart, trimEnd, subtitlesStatus, audioChannel, subtitlesChannel);
        StopsIfFails(script, 3, done, st) && StopsIfFails(script, 4, done, st) && StopsIfFails(script, 6, done, st)
      ensures FailedIfRaised(st)
      ensures var temps := NewTemps(video, output);
        var tail := NewTailScript(ClipTrim("00:00:00", DurationText(trimEnd, trimStart), temps.0, temps.1),
                                  WebEncode(temps.1, temps.2), temps.2, outputCleaned);
        Exec(tail, NewTailGuards(TimesGuard(trimEnd, trimStart)), old(files), outcome) == (done - 3, st)
    {
      ghost var script := NewScript(video, subtitles, output, outputCleaned, trimStart, trimEnd, subtitlesStatus, audioChannel, subtitlesChannel);
      var (tempTrimOutput, tempDurationOutput, tempEncodedOutput) := NewTemps(video, output);
      ghost var hard := PresetHardSubs(PathText(video), PathText(subtitles), tempTrimOutput, trimStart, trimEnd, subtitlesStatus, audioChannel, subtitlesChannel);
      ghost var tail := NewTailScript(ClipTrim("00:00:00", DurationText(trimEnd, trimStart), tempTrimOutput, tempDurationOutput),
                                      WebEncode(tempDurationOutput, tempEncodedOutput), tempEncodedOutput, outputCleaned);
      assert script == hard + tail;
      CutFirst(t0, script, hard, tail, 3);
      ghost var d;
      st, d := NewRest(tempTrimOutput, tempDurationOutput, tempEncodedOutput, outputCleaned, trimEnd, trimStart);
      CutLast(t0, script, hard, tail, d);
      done := 3 + d;
      StopsShift(hard, tail, 0, d, done, st);
      StopsShift(hard, tail, 1, d, done, st);
      StopsShift(hard, tail, 3, d, done, st);
    }

    /** The first stage of the `try` block of `trim_preset_new`: the hard-subs
        trim of the video into `basic`, which runs nothing with `check=True`. */
    method NewHead(video: string, subtitles: string, output: string, ghost outputCleaned: string, trimStart: string, trimEnd: string,
                   subtitlesStatus: string, audioChannel: string, subtitlesChannel: string)
      returns (st: Status, ghost done: nat)
      requires Valid()
      modifies this
      ensures Valid()
      ensures var script := NewScript(video, subtitles, output, outputCleaned, trimStart, trimEnd, subtitlesStatus, audioChannel, subtitlesChannel);
        done <= 3 && trace == old(trace) + script[..done]
      ensures st.Done? <==> done == 3
      ensures st.Raised? ==> st.error.FileNotFound? || st.error.SameFile?
      ensures var script := NewScript(video, subtitles, output, outputCleaned, trimStart, trimEnd, subtitlesStatus, audioChannel, subtitlesChannel);
        StopsIfFails(script, 3, done, st) && StopsIfFails(script, 4, done, st) && StopsIfFails(script, 6, done, st)
      ensures var hard := PresetHardSubs(PathText(video), PathText(subtitles), NewTemps(video, output).0, trimStart, trimEnd,
                                         subtitlesStatus, audioChannel, subtitlesChannel);
        Exec(hard, HardSubsGuards, old(files), outcome) == (done, st)
    {
      ghost var t0 := trace;
      ghost var script := NewScript(video, subtitles, output, outputCleaned, trimStart, trimEnd, subtitlesStatus, audioChannel, subtitlesChannel);
      var (tempTrimOutput, tempDurationOutput, tempEncodedOutput) := NewTemps(video, output);
      ghost var hard := PresetHardSubs(PathText(video), PathText(subtitles), tempTrimOutput, trimStart, trimEnd, subtitlesStatus, audioChannel, subtitlesChannel);
      ghost var tail := NewTailScript(ClipTrim("00:00:00", DurationText(trimEnd, trimStart), tempTrimOutput, tempDurationOutput),
                                      WebEncode(tempDurationOutput, tempEncodedOutput), tempEncodedOutput, outputCleaned);
      assert script == hard + tail;
      st, done := HardSubsStage(PathText(video), PathText(subtitles), tempTrimOutput, trimStart, trimEnd, subtitlesStatus, audioChannel, subtitlesChannel);
      CutFirst(t0, script, hard, tail, done);
      assert script[3] == tail[0] && script[4] == tail[1] && script[6] == tail[3];
    }

    /** What the `try` block of `trim_preset_new` does once the hard-subs trim
        is done: compute the clip length, which raises `ValueError` on a time
        that does not parse, then the checked stages of `NewTail`. */
    method NewRest(basic: string, duration: string, encoded: string, outputCleaned: string, trimEnd: string, trimStart: string)
      returns (st: Status, ghost done: nat)
      requires Valid()
      modifies this
      ensures Valid()
      ensures var script := NewTailScript(ClipTrim("00:00:00", DurationText(trimEnd, trimStart), basic, duration),
                                          WebEncode(duration, encoded), encoded, outputCleaned);
        done <= 4 && trace == old(trace) + script[..done]
      ensures st.Done? ==> done == 4
      ensures st == Raised(BadTime) <==> CalculateDuration(trimEnd, trimStart).None?
      ensures st == Raised(BadTime) ==> done == 0
      ensures st.Raised? && st != Raised(BadTime) ==> (done == 1 || done == 2 || done == 4) && st.error.ProcessFailed?
      ensures var script := NewTailScript(ClipTrim("00:00:00", DurationText(trimEnd, trimStart), basic, duration),
                                          WebEncode(duration, encoded), encoded, outputCleaned);
        StopsIfFails(script, 0, done, st) && StopsIfFails(script, 1, done, st) && StopsIfFails(script, 3, done, st)
      ensures FailedIfRaised(st)
      ensures var script := NewTailScript(ClipTrim("00:00:00", DurationText(trimEnd, trimStart), basic, duration),
                                          WebEncode(duration, encoded), encoded, outputCleaned);
        Exec(script, NewTailGuards(TimesGuard(trimEnd, trimStart)), old(files), outcome) == (done, st)
    {
      assert NewTailGuards(TimesGuard(trimEnd, trimStart))[1..] == NewTailGuards(Checked)[1..];
      var videoDuration := CalculateDuration(trimEnd, trimStart);
      if videoDuration.None? {
        return Raised(BadTime), 0;
      }
      var trimTask := ClipTrim("00:00:00", videoDuration.value, basic, duration);
      var encodeTask := WebEncode(duration, encoded);
      st, done := NewTail(trimTask, encodeTask, encoded, outputCleaned);
    }

    /** `trim_preset_new`: the stages of `NewStages`, then, whether they
        raised or not, the removal of each temporary file that exists. The
        exception of a stage, if any, propagates after the clean-up. None of the
        temporary files exists afterwards, and the clean-up removes nothing else. */
    method TrimPresetNew(video: string, subtitles: string, output: string, trimStart: string, trimEnd: string,
                         subtitlesStatus: string, audioChannel: string, subtitlesChannel: string)
      returns (st: Status, ghost done: nat, ghost removed: seq<string>)
      requires Valid()
      modifies this
      ensures Valid()
      ensures var script := NewScript(video, subtitles, output, CleanText(PathText(output)), trimStart, trimEnd, subtitlesStatus, audioChannel, subtitlesChannel);
        done <= 7 && trace == old(trace) + script[..done] + Removals(removed)
      ensures var (basic, duration, encoded) := NewTemps(video, output);
        basic !in files && duration !in files && encoded !in files
      ensures var (basic, duration, encoded) := NewTemps(video, output);
        forall p | p in removed :: p in [basic, duration, encoded]
      ensures st.Done? ==> done == 7
      ensures st == Raised(BadTime) <==> done == 3 && !st.Done?
      ensures st.Raised? && st.error.ProcessFailed? ==> (done == 4 || done == 5 || done == 7)
      ensures var script := NewScript(video, subtitles, output, CleanText(PathText(output)), trimStart, trimEnd, subtitlesStatus, audioChannel, subtitlesChannel);
        StopsIfFails(script, 3, done, st) && StopsIfFails(script, 4, done, st) && StopsIfFails(script, 6, done, st)
      ensures FailedIfRaised(st)
      ensures var script := NewScript(video, subtitles, output, CleanText(PathText(output)), trimStart, trimEnd, subtitlesStatus, audioChannel, subtitlesChannel);
        Exec(script, NewGuards(trimEnd, trimStart), old(files), outcome) == (done, st)
    {
      st, done := NewStages(video, subtitles, output, CleanText(PathText(output)), trimStart, trimEnd, subtitlesStatus, audioChannel, subtitlesChannel);
      var (tempTrimOutput, tempDurationOutput, tempEncodedOutput) := NewTemps(video, output);
      var temps := [tempTrimOutput, tempDurationOutput, tempEncodedOutput];
      removed := RemoveExisting(temps);
      assert tempTrimOutput == temps[0] && tempDurationOutput == temps[1] && tempEncodedOutput == temps[2];
    }

    /** The `finally` block of `trim_preset_new`: each path that exists is
        removed, in order; the others are skipped. */
    method RemoveExisting(temps: seq<string>) returns (ghost removed: seq<string>)
      requires Valid()
      modifies this
      ensures Valid()
      ensures trace == old(trace) + Removals(removed)
      ensures forall p | p in temps :: p !in files
      ensures forall p | p in removed :: p in temps
    {
      ghost var t1 := trace;
      removed := [];
      for i := 0 to |temps|
        invariant Valid()
        invariant trace == t1 + Removals(removed)
        invariant forall j | 0 <= j < i :: temps[j] !in files
        invariant forall p | p in removed :: p in temps
      {
        ghost var gone := RemoveIfExists(temps[i]);
        if gone {
          RemovalsSnoc(removed, temps[i]);
          removed := removed + [temps[i]];
        }
      }
    }

    /** One turn of the clean-up loop: `if p.exists(): p.unlink()`. */
    method RemoveIfExists(path: string) returns (ghost gone: bool)
      requires Valid()
      modifies this
      ensures Valid()
      ensures gone == (path in old(files))
      ensures trace == old(trace) + (if gone then [Removed(path)] else [])
      ensures files == old(files) - {path}
    {
      gone := path in files;
      if path in files {
        var _ := Remove(path);
      }
    }

    // -------------------------------------------------------------------------
    // loop_video (lib/encoding.py:307-322)
    // -------------------------------------------------------------------------

    /** `loop_video`: an unchecked run of the loop command, then, under the
        gif flag, the removal of the input. */
    method LoopVideo(input: string, output: string, loops: string, gifFlag: bool) returns (st: Status)
      requires Valid()
      modifies this
      ensures Valid()
      ensures var task := LoopInput(input, output, loops);
        var ran := Step(old(files), Ran(task), outcome);
        if !gifFlag then st == Done && trace == old(trace) + [Ran(task)] && files == ran
        else if input in ran then st == Done && trace == old(trace) + [Ran(task), Removed(input)] && files == ran - {input}
        else st == Raised(FileNotFound(input)) && trace == old(trace) + [Ran(task)] && files == ran
      ensures gifFlag ==> input !in files
    {
      var _ := Run(LoopInput(input, output, loops));
      st := Done;
      if gifFlag {
        st := Remove(input);
      }
    }
  }
}
