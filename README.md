# ffmpeg_tools in Dafny

ffmpeg_tools is a small desktop front end for ffmpeg. A Qt window records the
media to work on, its subtitle file, the audio and subtitle streams, and the
trim start and end. Functions in `lib/encoding.py` turn those choices into
ffmpeg and ffprobe command lines and chain them over temporary files.

This project models four parts of it:

- **`PyStr`, `PyPath`** (`pystr.dfy`, `pypath.dfy`): the pieces of Python the
  code relies on, on plain text. These are `str.replace`, `lower`, `strip`,
  slicing, `str(int)` and `zfill(2)`, `split`, `os.path.split` and
  `os.path.join`, and the `name`, `parent`, `stem`, `suffix`, `/` and
  `with_name` of `pathlib` on POSIX paths.
- **`Commands`** (`commands.dfy`): every argument vector `lib/encoding.py`
  builds, as a function of its inputs. The contracts say which flags carry
  which values. They also say whether an option sits before the `-i` it
  applies to (an input option) or after it (an output option), and which file
  the run writes.
- **`Encoding`** (`encoding.dfy`): the string logic around those runs. This
  covers `clean_text`, `calculate_duration` (with its `%H:%M:%S` parsing) and
  the codec-to-extension mapping of `get_subtitle_format`. It also covers the
  two conversions of subtitle paths for filter graphs, and the file filtering
  and renaming of the two batch loops.
- **`Pipeline`** (`pipeline.dfy`): the orchestrators `trim_with_hard_subs`,
  `trim_preset`, `trim_preset_new` and the input removal of `loop_video`.
  - A `Host` object holds the set of paths that exist and the trace of
    everything done so far: runs, copies, removals and probes.
  - An oracle, given as a parameter, decides for each ffmpeg run whether it
    succeeds and whether it writes its file.
  - `Host.Valid()` states that the file set is always the result of replaying
    the trace over the initial files.
  - `Exec` is how Python runs a straight-line block: the steps go in order
    and the first one that raises ends it. A guard per step says whether a
    run has `check=True` and whether `calculate_duration` comes just before
    it. Given the paths that exist when a step starts, a step raises:
    - `CalledProcessError` for a failed checked run;
    - `ValueError` for trim times that do not parse;
    - `FileNotFoundError` for a copy or removal of a missing path;
    - `SameFileError` for a copy onto itself.
  - `ExecFirstRaise` proves what a stop means: every step before it raised
    nothing, and the exception is the one the stopping step raises.
    `LastCheckedRunDecides` adds that a block which reaches its final
    checked run (the fade) completes exactly when that run succeeded.
  - Each orchestrator states that its trace is a prefix of its fixed script
    of steps. It also states that the number of steps it takes and how it
    ends are exactly `Exec` of that script, from the paths that existed when
    it was called, so it stops at no other step and raises no other
    exception. The stop at each checked run is stated by name as well.
  - `trim_with_hard_subs` and `trim_preset_new` also state which temporary
    files cannot exist when they return. `trim_preset` has no `finally`: when
    one of its stages raises, the temporaries made so far stay behind.
- **`Session`** (`session.dfy`): the `MediaInfo` record of
  `lib/media_info.py`, `trim_time_format`, and the handlers of
  `lib/video_window.py` that write the record.

## Model

| member | source | states |
|---|---|---|
| Encoding.CleanText | lib/encoding.py:51-62 | The cleaned name is never longer than the input: each replacement swaps a piece for one no longer. |
| Encoding.CleanTextSeparators | lib/encoding.py:51-62 | The cleaned name has no space, hyphen, comma or typographic apostrophe. |
| Encoding.CleanTextLowerCase | lib/encoding.py:51-62 | Every character of the cleaned name is a character of the lower-cased input, an underscore or an apostrophe. None of them is an upper-case ASCII letter. |
| Encoding.CleanTextUnderscoresNotIdempotent | lib/encoding.py:51-62 | Cleaning is not idempotent: `___` cleans to `__` and then to `_`, because `__` is replaced by `_` in a single pass. |
| Encoding.CleanTextApostropheNotIdempotent | lib/encoding.py:51-62 | Cleaning is not idempotent: `’` becomes `'`, and a second cleaning removes it. |
| Encoding.ParseFieldText | lib/encoding.py:133-138 | A `%H`, `%M` or `%S` field reads as `n` exactly when `n` is within the field's bound and the field is `n` written out, plain or zero-filled to two digits. |
| Encoding.ParsedFieldIsText | lib/encoding.py:133-138 | Any one or two ASCII digits are the plain or the zero-filled text of the number they denote. |
| Encoding.ParseClock | lib/encoding.py:133-138 | A parsed clock always has hours below 24 and minutes and seconds below 60. |
| Encoding.ParseClockFields | lib/encoding.py:133-138 | `HH:MM:SS` is read field by field, and any bad field gives the `ValueError`. |
| Encoding.CalculateDuration | lib/encoding.py:133-138 | `calculate_duration(end, start)` gives a result exactly when both times parse. |
| Encoding.CalculateDurationValue | lib/encoding.py:133-138 | The text of a computed duration reads back as the difference in seconds, and it starts with `-` exactly when the end is before the start. |
| Encoding.OutOfRangeRejected | lib/encoding.py:133-138 | Hours above 23, or minutes or seconds above 59, are rejected. The duration against `00:00:00` then raises. |
| Encoding.SubtitleFormat | lib/encoding.py:103-130 | A probe failure, output that is not JSON, or no subtitle stream gives `None`. Otherwise `ass` stays `ass`, `subrip` becomes `srt`, and any other codec name is kept. |
| Commands.EscapeFilterPath | lib/encoding.py:245-256 | After the conversion, every backslash in the burn path escapes a colon: Windows separators are all gone. |
| Encoding.EscapePairsColons | lib/encoding.py:245-256 | In the escaped burn path, every colon is preceded by a backslash. |
| Encoding.UnescapeEscape | lib/encoding.py:245-256 | Removing the colon escapes from the burn path gives the path with backslashes turned into slashes, so the escaping loses nothing. |
| Encoding.EscapeLengthens | lib/encoding.py:245-256 | A path with a colon grows when escaped and still contains a colon. |
| Encoding.EscapeTwice | lib/encoding.py:245-256 | Escaping is not idempotent on a path with a colon. |
| Encoding.HardSubsPathOnlySlashes | lib/encoding.py:438-441 | The `trim_with_hard_subs` path conversion keeps the length and changes only backslashes, which become slashes. Colons stay unescaped. |
| Encoding.EncodedOutputPlace | lib/encoding.py:337-353 | The batch output lies in `<folder>/encoded`. Its name is the input name without its last four characters, plus `.mp4`. |
| Encoding.BatchEncode | lib/encoding.py:337-353 | An empty folder gives no jobs. Otherwise a file is selected when its last three characters, lower-cased, are one of the `SUPPORTED_MEDIA` extensions (line 20), `mp4` included and with no dot needed (`clipmkv` is selected). The encodes run in listing order and the first one that fails ends the batch, since `encode_web_mp4` re-raises (lines 205-210): the jobs are the selected files up to and including that one, every job before it succeeded, and the batch completes exactly when all selected files were encoded and none failed. |
| Encoding.FilterMapPrefix | lib/encoding.py:343-352 | The jobs selected from a prefix of the listing are a prefix of the jobs of the whole listing. |
| Encoding.SubtitleOutputPlace | lib/encoding.py:356-365 | The extracted subtitle sits beside the media file. Its name is the stem plus the extension mapped from the probed codec. |
| Encoding.BatchExtractSubtitles | lib/encoding.py:356-365 | An empty folder gives no jobs. Otherwise the jobs are, in listing order, one extraction per file whose suffix, without its dot and lower-cased, is `mkv`, `mp4`, `avi` or `mov`. Each job extracts subtitle stream `subtitle_channel`: its probe selects `s:<channel>` to pick the extension, and every job maps `0:s:<channel>`. |
| Commands.DurationProbe | lib/encoding.py:65-100 | `get_video_duration` runs ffprobe on the file and asks only for `format=duration`, printed without keys. |
| Commands.SubtitleProbe | lib/encoding.py:103-130 | The probe is a bare `ffprobe` on the file. It selects subtitle stream `s:<index>`, prints JSON and shows the streams. |
| Commands.LosslessMp4 | lib/encoding.py:141-156 | The command reads the input, writes the output, and re-encodes with libx264 and aac. |
| Commands.Mp4TargetParts | lib/encoding.py:159-162 | The web encode writes into the output's directory, under the output's stem with `.mp4`. |
| Commands.EncodeWebMp4 | lib/encoding.py:159-210 | The command reads the input, writes the `.mp4` target, and passes every setting of the web preset. |
| Commands.WebEncodeQuality | lib/encoding.py:20-36 | The web encode passes the configured CRF, the compression preset, the baseline profile, the 1280-wide scale, libx264/aac and the mp4 format. |
| Commands.ExtractSubtitle | lib/encoding.py:213-235 | The command reads the input, maps subtitle stream `0:s:<channel>` and writes the output. |
| Commands.BurnSubtitles | lib/encoding.py:238-277 | Nothing runs when the subtitle file is missing. Otherwise the filter is `[0:v]subtitles='<escaped path>'[v]`, with `[v]` and `0:a?` mapped and the audio copied. |
| Commands.ToGif | lib/encoding.py:280-285 | There is no command for an empty output. Otherwise the command runs at 30 fps and loops forever. |
| Commands.GifToMp4 | lib/encoding.py:288-304 | There is no command for an empty output. Otherwise the command uses faststart and yuv420p and scales to even dimensions. |
| Commands.LoopVideo | lib/encoding.py:307-318 | `-stream_loop <n>` comes before the input and `-c copy` after it. The command writes the output. |
| Commands.VideoToFrames | lib/encoding.py:325-334 | The command reads the input and writes numbered PNG frames into the output directory. |
| Commands.TrimBasic | lib/encoding.py:368-401 | `-ss` and `-to` come before the input and `-ss` comes again after it. The command keeps timestamps, maps the chosen streams and copies the audio. |
| Commands.TrimWithHardSubs | lib/encoding.py:441-470 | `-ss` and `-to` come before the input, followed by the `subtitles='…'` video filter and the chosen streams. The audio is converted to stereo aac at 320k and 48 kHz, and `-ss` comes again before the output. |
| Commands.TrimDuration | lib/encoding.py:478-525 | `-ss` comes before the input. `-t <duration>`, the three stream maps, `-reset_timestamps 1` and `-c copy` come after it. |
| Commands.Fade | lib/encoding.py:528-558 | The video and audio fade out start one second before the clip's end and last one second. The command overwrites the output. |
| Commands.Convert3gpToMp4 | lib/encoding.py:561-584 | The command reads the input, writes the output, and re-encodes with libx264 and aac. |
| Commands.ExtractAudio | lib/encoding.py:587-642 | The command starts with `ffmpeg -i <input> -vn` and ends with the output. In between are the codec options chosen by the lower-cased suffix of the output, passed as flag and value: `.mp3` gives `-c:a libmp3lame -q:a 2`, `.wav` gives `-c:a pcm_s16le`, `.ogg` gives `-c:a libvorbis -q:a 4`, and any other suffix gives `-c:a copy`. |
| Commands.AudioCodecArgs | lib/encoding.py:595-632 | The audio codec is copied exactly when the suffix is not `.mp3`, `.wav` or `.ogg`, and a `-q:a` quality is passed exactly for `.mp3` and `.ogg`. The codec and quality for each suffix are stated by `Commands.ExtractAudio`. |
| Commands.ImageAudioToVideo | lib/encoding.py:645-689 | Nothing runs when the audio duration is not positive. Otherwise the image is looped as a still-image libx264 stream with aac at 192k, cut to the shortest input. |
| Pipeline.ExecFirstRaise | lib/encoding.py:692-772 | A block stops at its first step that raises. Every step before the stop raises nothing from the paths that exist when it starts, and the exception is the one the stopping step raises from the paths it starts with. |
| Pipeline.ExecAppend | lib/encoding.py:692-772 | Two blocks in a row run as one: the second starts, from the paths the first left, only when the first completed. Otherwise the first block's stop is the whole stop. |
| Pipeline.LastCheckedRunDecides | lib/encoding.py:839-846 | A block that reaches its final checked run (the fade of both presets) completes exactly when that run succeeded, and otherwise raises that run's `CalledProcessError`. |
| Pipeline.ExecRunThenRemove | lib/encoding.py:744-748 | A run and the removal of what it read. A failed checked run stops it after one step. Otherwise it completes exactly when the file exists after the run, and raises `FileNotFoundError` for that file when it does not. |
| Pipeline.ExecAroundProbe | lib/encoding.py:750-771 | Two checked run-then-remove stages with a probe between them: the second starts, from the paths the first left, only once the first completed. |
| Pipeline.Host.Run | lib/encoding.py:470 | An ffmpeg run is recorded. Its file appears exactly when the oracle says so, and nothing else changes. |
| Pipeline.Host.Remove | lib/encoding.py:474 | `os.remove` takes an existing path away and records it. A missing path raises and changes nothing. |
| Pipeline.Host.CopyFile | lib/encoding.py:438 | `copyfile` raises on a missing source and on copying a file onto itself, changing nothing. Otherwise it records the copy, which makes the destination exist. |
| Pipeline.Host.ProbeSeconds | lib/encoding.py:65-100 | The probe gives the oracle's whole seconds for the file and changes no file. |
| Pipeline.Host.TrimWithHardSubs | lib/encoding.py:404-475 | The trace is a prefix of: extract or copy the subtitle file, trim with it burnt in, remove it. Steps and status are exactly `Exec` of that script from the paths at the call, with no run checked. So a missing source, or a source that is the temporary itself, makes the copy raise before anything runs. Otherwise the trim always runs, and the final removal raises exactly when the subtitle file was never made. Once anything has run, no temporary subtitle file exists afterwards. |
| Pipeline.Host.HardSubsStage | lib/encoding.py:723-740 | The first stage of both presets: with `external` in the status, the external subtitle file and stream `0`, otherwise the selected internal stream. Its trace is a prefix of that `trim_with_hard_subs` script, and its steps and status are exactly `Exec` of it. Only a copy or a removal can raise, and only when `Exec` says so. |
| Pipeline.Host.RunThenRemoveStage | lib/encoding.py:744-748 | A run, then removal of the file it read. A checked run raises `CalledProcessError` exactly when the oracle says it failed, and then before the removal. Otherwise the stage completes exactly when the file it read exists after the run, and raises `FileNotFoundError` for it when it does not. Steps and status are exactly `Exec` of the two steps. |
| Pipeline.Host.PresetTempsPlace | lib/encoding.py:711-755 | The three temporary files of `trim_preset` are different paths. Under a directory that does not end in a slash, each splits back into the output's directory and `basic_<video name>`, `encode_<output name>` or `duration_<output name>`. |
| Pipeline.Host.PresetHead | lib/encoding.py:711-748 | The hard-subs trim into `basic_<video>`, the web encode into `encode_<output>`, then the removal of `basic_`. Steps and status are exactly `Exec` of these five steps, with only the web encode checked. A failed web encode stops the stages right after it with its `CalledProcessError`, and that error is raised only for a run that failed. |
| Pipeline.Host.PresetTail | lib/encoding.py:750-771 | The duration trim into `duration_<output>`, removal of `encode_`, a probe, the fade into the cleaned output, and removal of `duration_`. Steps and status are exactly `Exec` of these five steps with the trim and the fade checked. A failed duration trim or fade stops the stages right after it, and only a failed run raises `CalledProcessError`. |
| Pipeline.Host.PresetStart | lib/encoding.py:711-748 | The stages up to the removal of `basic_`, seen as a prefix of the whole preset script. Steps and status are exactly `Exec` of the first five steps. The stops are those of `PresetHead`, at the same places of the ten steps. |
| Pipeline.Host.PresetRest | lib/encoding.py:750-771 | Once the encode is done, times that do not parse raise `ValueError` before anything else runs, and exactly then. Otherwise the last stages of the preset follow. Steps and status are exactly `Exec` of the last five steps, with the times checked before the duration trim. |
| Pipeline.Host.PresetFinish | lib/encoding.py:750-771 | After a web encode that did not raise, the rest of the ten steps. The steps beyond the fifth and the status are exactly `Exec` of the last five steps from the paths at the call. `ValueError` comes exactly at step 5, and a failed checked run stops at step 6 or 9. |
| Pipeline.Host.TrimPreset | lib/encoding.py:692-772 | The trace is a prefix of the ten-step script. Steps and status are exactly `Exec` of that script from the paths at the call. So each step before the stop raised nothing, the exception is the stopping step's own, and a preset that reaches the fade completes exactly when the fade succeeds. Each temporary file is removed only after the stage that reads it has succeeded. A checked run that the oracle says failed stops the preset right after it, at step 4, 6 or 9, and no other run raises `CalledProcessError`. Times that do not parse raise `ValueError` after `basic_` is gone, before the duration trim. Nothing is cleaned up on a raise. |
| Pipeline.Host.RunChecked | lib/encoding.py:829-846 | With `check=True`, a non-zero exit raises `CalledProcessError` after the run is recorded. |
| Pipeline.Host.RunCheckedPair | lib/encoding.py:829-837 | The duration trim and then the web encode. The pair stops at the first run the oracle says failed, with that run's `CalledProcessError`. If neither failed, both ran and nothing is raised. Steps and status are exactly `Exec` of the two checked runs. |
| Pipeline.Host.ProbeThenFade | lib/encoding.py:839-846 | Probe the encoded clip, then fade it into the cleaned output using the probed length. Both steps are taken, and the status is exactly `Exec` of the probe and the checked fade: done exactly when the fade succeeded. |
| Pipeline.Host.NewTail | lib/encoding.py:825-846 | The checked stages after the hard-subs trim, in order. Steps and status are exactly `Exec` of these four steps. The trace stops right after the first run the oracle says failed, and that run's `CalledProcessError` is raised. When the trim and the encode succeed, the probe and the fade follow, and the fade's outcome decides the result. |
| Pipeline.Host.NewTempsPlace | lib/encoding.py:792-799 | The three temporary files of `trim_preset_new` are different paths. Each sits beside the output, as `basic_<video name>`, `duration_<video name>` or `encoded_<output name>`. |
| Pipeline.Host.NewStages | lib/encoding.py:804-846 | The `try` block: the trace is a prefix of the seven-step script, and steps and status are exactly `Exec` of it from the paths at the call. Bad times raise at step 3. A checked run that the oracle says failed stops the block right after it, at step 4, 5 or 7, and only such a run raises `CalledProcessError`. |
| Pipeline.Host.NewHead | lib/encoding.py:804-823 | The hard-subs trim into `basic_`, as the first three steps of the `try` script. Steps and status are exactly `Exec` of those three steps. Only a copy or a removal can raise there. |
| Pipeline.Host.NewRest | lib/encoding.py:825-846 | Times that do not parse raise `ValueError` before anything runs, and exactly then. Otherwise the checked stages of `NewTail` follow, stopping at the first run that failed. Steps and status are exactly `Exec` of the last four steps, with the times checked before the duration trim. |
| Pipeline.Host.NewFinish | lib/encoding.py:825-846 | After a hard-subs trim that did not raise, the rest of the seven steps. The steps beyond the third and the status are exactly `Exec` of the last four steps from the paths at the call. `ValueError` comes exactly at step 3, and a failed checked run stops at step 4, 5 or 7. |
| Pipeline.Host.TrimPresetNew | lib/encoding.py:775-855 | The steps and status of the `try` block are exactly `Exec` of the seven-step script from the paths at the call, so a block that reaches the fade completes exactly when the fade succeeds. After the block, whether it finished or raised, the `finally` removes exactly the temporaries that exist. None of `basic_<video>`, `duration_<video>` and `encoded_<output>` exists on return. A failed checked run stops the block right after it, and only such a run raises `CalledProcessError`. |
| Pipeline.Host.RemoveExisting | lib/encoding.py:848-853 | The clean-up loop removes only listed paths. None of the listed paths exists afterwards. |
| Pipeline.Host.RemoveIfExists | lib/encoding.py:852-853 | A path that exists is removed and recorded. A missing path is skipped without raising. Either way the path does not exist afterwards, and nothing else changes. |
| Pipeline.Host.LoopVideo | lib/encoding.py:307-322 | The loop run is recorded. Without the flag nothing else happens. With the flag the input is removed, or `FileNotFound` is raised when it is missing, and the input does not exist afterwards. |
| Session.MediaInfo.constructor | lib/media_info.py:5-12 | The defaults: empty file and subtitle locations, channels `"0"`, trim start and end `"00:00:00"`, and no duration. |
| Session.DefaultTrimIsEmpty | lib/media_info.py:11-12 | The default trim bounds parse, and the duration between them is `"0"`. |
| Session.TrimTimeFormat | lib/video_window.py:49-54 | The formatted time has eight characters: two digits, a colon, two digits, a colon, two digits. |
| Session.TrimTimeFormatRoundTrip | lib/video_window.py:49-54 | Parsing a formatted time as `%H:%M:%S` gives back the same clock. |
| Session.TrimLengthOfFormattedTimes | lib/video_window.py:374-380 | The duration of two formatted times always parses. It reads back as the end's seconds since midnight minus the start's. |
| Session.SrtSibling | lib/video_window.py:288-295 | The sibling always ends in `.srt`, and what comes before is the file location without its last four characters (all of it goes when there are fewer). |
| Session.SrtSiblingReplacesExtension | lib/video_window.py:288 | For a path with a four-character extension, the subtitle sibling replaces that extension with `.srt`. |
| Session.VideoWindow.constructor | lib/video_window.py:61-102 | A new window holds a default record and the two "nothing selected" labels. |
| Session.VideoWindow.SetMedia | lib/video_window.py:278-295 | With no file nothing changes. Otherwise the file label shows the file, and the subtitle location and label become the `.srt` sibling exactly when it exists. No other field changes. |
| Session.VideoWindow.OpenVideo | lib/video_window.py:324-326 | The chosen file is recorded and `set_media` follows. |
| Session.VideoWindow.OpenSubtitle | lib/video_window.py:329-333 | The record never changes. After a choice, the label shows the subtitle location already on record. |
| Session.VideoWindow.DurationChanged | lib/video_window.py:357-358 | Only the duration attribute changes. |
| Session.VideoWindow.AudioChannelValueChange | lib/video_window.py:368-369 | Only the audio channel changes, and it reads back as the new value. |
| Session.VideoWindow.SubtitleChannelValueChange | lib/video_window.py:371-372 | Only the subtitle channel changes, and it reads back as the new value. |
| Session.VideoWindow.TrimStartValueChange | lib/video_window.py:374-376 | Only the trim start changes. It becomes the formatted time, which parses back to the edited clock. |
| Session.VideoWindow.TrimEndValueChange | lib/video_window.py:378-380 | Only the trim end changes. It becomes the formatted time, which parses back to the edited clock. |

## Left out

- External programs are not run. Each ffmpeg run is a `Task`, and a function-valued parameter (`Host.outcome`) decides its exit status and whether it writes its file. The probe of a clip's length is a parameter too (`Host.seconds`).
- `get_video_duration` parses ffprobe's text output as a float and truncates it with `int()`. The model has only the resulting whole seconds.
- `get_subtitle_format` decodes ffprobe's JSON. The model starts from what the decoding yields (`ProbeReport`).
- A stream entry without `codec_name` raises `KeyError`. This is not modelled.
- `image_audio_to_video` takes the audio duration as a `real` parameter instead of probing it.
- The file system is a set of paths. Directories, `mkdir` (`check_directory_exists`) and `os.listdir` are not modelled; a directory listing is a parameter.
- Paths are POSIX paths, assumed normalised (no `.` or empty components), so `pathlib` and plain string joins agree on them. The Windows defaults `FFMPEG_PATH` and `FFPROBE_PATH` are parameters. `absolute()` and `as_posix()` are taken to leave a path unchanged.
- `str(Path(""))` is `"."`. The model keeps this for the three paths that `trim_preset_new` converts (`PathText`).
- The Qt window, the media player, the dialogs and the labels other than the file and subtitle labels are not modelled. Neither are `time_select_format`, `time_edit_format`, `play` or the slider handlers.
- The threads the window starts for long jobs are not modelled. Each job is a plain call here.
- `print` output is not modelled.
- `Session.VideoWindow.DurationChanged`: the player's duration also reaches the trim-end editor, whose change signal then runs `trim_end_value_change`. That path goes through `time_select_format` and Qt and is not modelled; only the recorded attribute is.
- `Session.VideoWindow.AudioChannelValueChange`: the spin box hands over an `int` and the record then holds an `int`. Every later use formats it into text, so the model keeps its decimal text.
- `Session.VideoWindow.SubtitleChannelValueChange`: likewise.
- `Session.VideoWindow.TrimStartValueChange` and `Session.VideoWindow.TrimEndValueChange` take the edited time as a `Clock` that is already a valid time of day, which is what a `QTime` always is.
- `Encoding.CleanText`: lower-casing (`PyStr.Lower`) maps only the ASCII letters `A`-`Z`. Python's `str.lower()` also lower-cases other letters (`É` becomes `é`) and can lengthen a string (`İ` becomes two characters). The model leaves every non-ASCII character as it is, so `CleanText`'s contracts hold for ASCII letters only, and the length bound is not claimed for input such as `İ`.
- `Encoding.CleanTextLowerCase`: for the same reason, the lower-casing it speaks of is ASCII lower-casing.
- The cleaned output path is computed before the preset's stages run, not just before the fade. `clean_text` has no effects, so the runs and files are the same.
- Digits are ASCII digits only. `strptime` also accepts other Unicode decimal digits; the model does not.
- `ffmpeg_manupilation.py` is not part of this model.
- Three places in the source cannot run as written:
  - `encode_web_mp4` reads `output_file.stem` on the string its callers pass (lib/encoding.py:161, called from 349, 745 and 837), which raises `AttributeError`. The model gives it the evidently intended `Path` behaviour: the output is moved to `<stem>.mp4` beside it.
  - `batch_extract_subs` in the window calls `encoding.batch_extract_susbs` (lib/video_window.py:418), which does not exist. The model covers the function it evidently means, `batch_extract_subtitles`.
  - `get_subtitle_format` runs a bare `ffprobe` from the search path (lib/encoding.py:105), not the configured `FFPROBE_PATH`. The model keeps that.

## Behaviour worth knowing

- `clean_text` is applied to the whole output path in `trim_preset` and `trim_preset_new`, directory included. The fade therefore writes to a lower-cased path with underscores in place of spaces and hyphens, which may not be the directory that was chosen.
- In `trim_preset_new`, the web encode writes `<stem of encoded_<output name>>.mp4`. For an output that does not end in `.mp4`, that file is not among the three temporaries the `finally` block removes, and the probe that follows looks for a file that was never written.
- In `trim_preset`, the temporaries stay behind when any stage raises, because there is no `finally`. `trim_preset_new` does clean up.
