/** The argument vectors `lib/encoding.py` hands to ffmpeg and ffprobe.
    Every builder returns the exact list the source writes; the tool paths are
    parameters, since the configured executables are opaque here. */
module Commands {
  import opened PyStr
  import opened PyPath

  // ---------------------------------------------------------------------------
  // Reading an argument vector the way ffmpeg does: options come as
  // `-flag value` pairs, options before an `-i` belong to that input, options
  // after it to the output, and the last argument is the output file.
  // ---------------------------------------------------------------------------

  /** `flag value` stands at positions `i` and `i + 1`, before the output argument. */
  predicate OptAt(argv: seq<string>, i: int, flag: string, value: string)
  {
    0 < i && i + 2 < |argv| && argv[i] == flag && argv[i + 1] == value
  }

  /** The command passes `flag value`. */
  predicate Passes(argv: seq<string>, flag: string, value: string)
  {
    exists i | 0 < i < |argv| :: OptAt(argv, i, flag, value)
  }

  /** The command gives the option-less switch `flag`. */
  predicate Gives(argv: seq<string>, flag: string)
  {
    exists i :: 0 < i < |argv| - 1 && argv[i] == flag
  }

  /** `flag value` comes before `-i input`, so ffmpeg applies it to that input. */
  predicate InputOption(argv: seq<string>, flag: string, value: string, input: string)
  {
    exists i, j | 0 < i < |argv| && 0 < j < |argv| :: OptAt(argv, i, flag, value) && OptAt(argv, j, "-i", input) && i + 1 < j
  }

  /** `flag value` comes after `-i input`, so ffmpeg applies it to the output. */
  predicate OutputOption(argv: seq<string>, flag: string, value: string, input: string)
  {
    exists i, j | 0 < i < |argv| && 0 < j < |argv| :: OptAt(argv, i, flag, value) && OptAt(argv, j, "-i", input) && j + 1 < i
  }

  /** The command runs `tool` and writes `output`, its last argument. */
  predicate Runs(argv: seq<string>, tool: string, output: string)
  {
    |argv| >= 2 && argv[0] == tool && argv[|argv| - 1] == output
  }

  /** The file an ffmpeg command writes. */
  function Target(argv: seq<string>): string
    requires argv != []
  {
    argv[|argv| - 1]
  }

  // ---------------------------------------------------------------------------
  // Encoding defaults (lib/encoding.py:20-36)
  // ---------------------------------------------------------------------------

  const SupportedMedia: seq<string> := ["mp4", "mkv", "avi", "mov"]
  const CrfValue: string := "23"
  const Profile: string := "baseline"
  const CompressionRatio: string := "veryslow"

  // ---------------------------------------------------------------------------
  // Probes
  // ---------------------------------------------------------------------------

  /** `get_video_duration`: ask ffprobe for the container duration alone. */
  function DurationProbe(ffprobe: string, file: string): (r: seq<string>)
    ensures Runs(r, ffprobe, file)
    ensures Passes(r, "-show_entries", "format=duration")
    ensures Passes(r, "-of", "default=noprint_wrappers=1:nokey=1")
  {
    var r := [ffprobe, "-v", "error", "-show_entries", "format=duration", "-of", "default=noprint_wrappers=1:nokey=1", file];
    assert OptAt(r, 3, "-show_entries", "format=duration") && OptAt(r, 5, "-of", "default=noprint_wrappers=1:nokey=1");
    r
  }

  /** `get_subtitle_format`: the JSON description of subtitle stream `index`.
      It runs a bare `ffprobe` found on the search path, not the configured one. */
  function SubtitleProbe(file: string, index: string): (r: seq<string>)
    ensures Runs(r, "ffprobe", file)
    ensures Passes(r, "-select_streams", "s:" + index) && Passes(r, "-print_format", "json")
    ensures Gives(r, "-show_streams")
  {
    var r := ["ffprobe", "-v", "quiet", "-print_format", "json", "-show_streams", "-select_streams", "s:" + index, file];
    assert OptAt(r, 3, "-print_format", "json") && OptAt(r, 6, "-select_streams", "s:" + index) && r[5] == "-show_streams";
    r
  }

  // ---------------------------------------------------------------------------
  // Re-encodes and conversions
  // ---------------------------------------------------------------------------

  /** `lossless_mp4`: H.264 video, AAC audio. */
  function LosslessMp4(ffmpeg: string, input: string, output: string): (r: seq<string>)
    ensures Runs(r, ffmpeg, output) && |r| == 8
    ensures Passes(r, "-i", input) && Passes(r, "-c:v", "libx264") && Passes(r, "-c:a", "aac")
  {
    var r := [ffmpeg, "-i", input, "-c:v", "libx264", "-c:a", "aac", output];
    assert OptAt(r, 1, "-i", input) && OptAt(r, 3, "-c:v", "libx264") && OptAt(r, 5, "-c:a", "aac");
    r
  }

  /** `convert_3gp_to_mp4`: the same re-encode as `lossless_mp4`. */
  function Convert3gpToMp4(ffmpeg: string, input: string, output: string): (r: seq<string>)
    ensures Runs(r, ffmpeg, output) && |r| == 8
    ensures Passes(r, "-i", input) && Passes(r, "-c:v", "libx264") && Passes(r, "-c:a", "aac")
  {
    var r := [ffmpeg, "-i", input, "-c:v", "libx264", "-c:a", "aac", output];
    assert OptAt(r, 1, "-i", input) && OptAt(r, 3, "-c:v", "libx264") && OptAt(r, 5, "-c:a", "aac");
    r
  }

  /** A path with no doubled slashes and no trailing slash (except the root). */
  predicate NormalPath(p: string)
  {
    (forall k :: 0 < k < |p| && p[k] == '/' ==> p[k - 1] != '/') && (p != "/" ==> p == [] || p[|p| - 1] != '/')
  }

  lemma NormalParent(p: string)
    requires NormalPath(p)
    ensures NormalDir(Parent(p))
  {
  }

  /** `output_file.with_name(f"{output_file.stem}.mp4")`: the output moved to an `.mp4` name. */
  function Mp4Target(output: string): string
  {
    WithName(output, Stem(Name(output)) + ".mp4")
  }

  /** The `.mp4` target stays in the output's directory, keeps its stem and ends in `.mp4`. */
  lemma Mp4TargetParts(output: string)
    requires NormalPath(output)
    ensures Parent(Mp4Target(output)) == Parent(output)
    ensures Name(Mp4Target(output)) == Stem(Name(output)) + ".mp4"
    ensures EndsWith(Mp4Target(output), ".mp4")
  {
    NormalParent(output);
    var n := Stem(Name(output)) + ".mp4";
    assert '/' !in n by {
      StemSuffix(Name(output));
      assert forall c :: c in Stem(Name(output)) ==> c in Name(output);
    }
    assert n[|n| - 4..] == ".mp4";
    ChildFacts(Parent(output), n, ".mp4");
  }

  /** The `flag value` pairs `encode_web_mp4` places between its input and its output, in order. */
  const WebSettings: seq<(string, string)> := [
    ("-map_metadata", "0"), ("-movflags", "use_metadata_tags"),
    ("-c:v", "libx264"), ("-c:a", "aac"), ("-ac", "2"), ("-ar", "48000"), ("-b:a", "192k"),
    ("-pix_fmt", "yuv420p"), ("-profile:v", Profile), ("-level", "3.0"), ("-crf", CrfValue),
    ("-preset", CompressionRatio), ("-vf", "scale=1280:-2"), ("-movflags", "+faststart"),
    ("-threads", "0"), ("-f", "mp4")]

  /** Option pairs written out one after the other. */
  function Flatten(pairs: seq<(string, string)>): (r: seq<string>)
    ensures |r| == 2 * |pairs|
  {
    if pairs == [] then [] else [pairs[0].0, pairs[0].1] + Flatten(pairs[1..])
  }

  /** Every pair of a flattened table sits at its own even offset. */
  lemma {:induction false} FlattenAt(pairs: seq<(string, string)>, k: int)
    requires 0 <= k < |pairs|
    ensures Flatten(pairs)[2 * k] == pairs[k].0 && Flatten(pairs)[2 * k + 1] == pairs[k].1
  {
    if k > 0 {
      FlattenAt(pairs[1..], k - 1);
    }
  }

  /** A command line that passes every pair of a table between a prefix and a non-empty tail. */
  lemma FlattenPasses(head: seq<string>, pairs: seq<(string, string)>, tail: seq<string>)
    requires head != [] && tail != []
    ensures forall k | 0 <= k < |pairs| :: Passes(head + Flatten(pairs) + tail, pairs[k].0, pairs[k].1)
  {
    var r := head + Flatten(pairs) + tail;
    forall k | 0 <= k < |pairs|
      ensures Passes(r, pairs[k].0, pairs[k].1)
    {
      FlattenAt(pairs, k);
      assert OptAt(r, |head| + 2 * k, pairs[k].0, pairs[k].1);
    }
  }

  /** `encode_web_mp4`: the web-shareable profile, written to the `.mp4` form of the output name. */
  function EncodeWebMp4(ffmpeg: string, input: string, output: string): (r: seq<string>)
    ensures Runs(r, ffmpeg, Mp4Target(output)) && Passes(r, "-i", input)
    ensures forall k | 0 <= k < |WebSettings| :: Passes(r, WebSettings[k].0, WebSettings[k].1)
  {
    var r := [ffmpeg, "-i", input] + Flatten(WebSettings) + [Mp4Target(output)];
    assert OptAt(r, 1, "-i", input);
    FlattenPasses([ffmpeg, "-i", input], WebSettings, [Mp4Target(output)]);
    r
  }

  /** The web profile's quality settings: constant rate factor, preset, H.264 profile, 720p width. */
  lemma WebEncodeQuality(ffmpeg: string, input: string, output: string)
    ensures var r := EncodeWebMp4(ffmpeg, input, output);
      Passes(r, "-crf", CrfValue) && Passes(r, "-preset", CompressionRatio)
      && Passes(r, "-profile:v", Profile) && Passes(r, "-vf", "scale=1280:-2")
      && Passes(r, "-c:v", "libx264") && Passes(r, "-c:a", "aac") && Passes(r, "-f", "mp4")
  {
    var r := EncodeWebMp4(ffmpeg, input, output);
    assert WebSettings[10] == ("-crf", CrfValue);
    assert WebSettings[11] == ("-preset", CompressionRatio);
    assert WebSettings[8] == ("-profile:v", Profile);
    assert WebSettings[12] == ("-vf", "scale=1280:-2");
    assert WebSettings[2] == ("-c:v", "libx264");
    assert WebSettings[3] == ("-c:a", "aac");
    assert WebSettings[15] == ("-f", "mp4");
  }

  /** `to_gif`: nothing is run for an empty output name. */
  function ToGif(ffmpeg: string, input: string, output: string): (r: Option<seq<string>>)
    ensures r.None? <==> output == ""
    ensures r.Some? ==> Runs(r.value, ffmpeg, output) && Passes(r.value, "-i", input)
    ensures r.Some? ==> Passes(r.value, "-vf", "fps=30") && Passes(r.value, "-loop", "0")
  {
    if output == "" then None
    else
      var r := [ffmpeg, "-i", input, "-vf", "fps=30", "-loop", "0", output];
      assert OptAt(r, 1, "-i", input) && OptAt(r, 3, "-vf", "fps=30") && OptAt(r, 5, "-loop", "0");
      Some(r)
  }

  /** `gif_to_mp4`: nothing is run for an empty output name; the frame is cut to even dimensions. */
  function GifToMp4(ffmpeg: string, input: string, output: string): (r: Option<seq<string>>)
    ensures r.None? <==> output == ""
    ensures r.Some? ==> Runs(r.value, ffmpeg, output) && Passes(r.value, "-i", input)
    ensures r.Some? ==> Passes(r.value, "-movflags", "faststart") && Passes(r.value, "-pix_fmt", "yuv420p")
    ensures r.Some? ==> Passes(r.value, "-vf", "scale=trunc(iw/2)*2:trunc(ih/2)*2")
  {
    if output == "" then None
    else
      var r := [ffmpeg, "-i", input, "-movflags", "faststart", "-pix_fmt", "yuv420p",
                "-vf", "scale=trunc(iw/2)*2:trunc(ih/2)*2", output];
      assert OptAt(r, 1, "-i", input) && OptAt(r, 3, "-movflags", "faststart") && OptAt(r, 5, "-pix_fmt", "yuv420p");
      assert OptAt(r, 7, "-vf", "scale=trunc(iw/2)*2:trunc(ih/2)*2");
      Some(r)
  }

  /** `loop_video`: the input is read `loops` extra times and stream-copied. */
  function LoopVideo(ffmpeg: string, input: string, output: string, loops: string): (r: seq<string>)
    ensures Runs(r, ffmpeg, output)
    ensures InputOption(r, "-stream_loop", loops, input)
    ensures OutputOption(r, "-c", "copy", input)
  {
    var r := [ffmpeg, "-stream_loop", loops, "-i", input, "-c", "copy", output];
    assert OptAt(r, 1, "-stream_loop", loops) && OptAt(r, 3, "-i", input) && OptAt(r, 5, "-c", "copy");
    r
  }

  /** `video_to_frames`: numbered PNG images in the output directory. */
  function VideoToFrames(ffmpeg: string, input: string, outDir: string): (r: seq<string>)
    ensures Runs(r, ffmpeg, OsJoin(outDir, "out-%03d.png")) && |r| == 4
    ensures r[1] == "-i" && r[2] == input
  {
    [ffmpeg, "-i", input, OsJoin(outDir, "out-%03d.png")]
  }

  /** `extract_subtitle`: subtitle stream `channel` copied to its own file. */
  function ExtractSubtitle(ffmpeg: string, input: string, output: string, channel: string): (r: seq<string>)
    ensures Runs(r, ffmpeg, output) && |r| == 6
    ensures Passes(r, "-i", input) && Passes(r, "-map", "0:s:" + channel)
  {
    var r := [ffmpeg, "-i", input, "-map", "0:s:" + channel, output];
    assert OptAt(r, 1, "-i", input) && OptAt(r, 3, "-map", "0:s:" + channel);
    r
  }

  // ---------------------------------------------------------------------------
  // Subtitle burn-in and its filter-graph path escaping
  // ---------------------------------------------------------------------------

  /** `subtitle_file.replace('\\', '/').replace(':', '\\:')`: Windows
      separators become slashes, so the only backslashes left are the ones
      that escape a colon. */
  function EscapeFilterPath(p: string): (r: string)
    ensures BackslashesEscapeColons(r)
  {
    var q := Replace(p, "\\", "/");
    ReplaceRemoves(p, '\\', "/");
    ReplaceOneChar(q, ':', "\\:");
    SubstEscapesOnly(q);
    Replace(q, ":", "\\:")
  }

  /** Every backslash is followed by a colon. */
  predicate BackslashesEscapeColons(e: string)
  {
    forall i | 0 <= i < |e| && e[i] == '\\' :: i + 1 < |e| && e[i + 1] == ':'
  }

  /** Escaping the colons of a text without backslashes leaves no backslash
      that is not followed by a colon. */
  lemma {:induction false} SubstEscapesOnly(q: string)
    requires '\\' !in q
    ensures BackslashesEscapeColons(Subst(q, ':', "\\:"))
  {
    if q != [] {
      SubstEscapesOnly(q[1..]);
      var head := if q[0] == ':' then "\\:" else [q[0]];
      var rest := Subst(q[1..], ':', "\\:");
      assert Subst(q, ':', "\\:") == head + rest;
      assert q[0] in q;
      forall i | 0 <= i < |head + rest| && (head + rest)[i] == '\\'
        ensures i + 1 < |head + rest| && (head + rest)[i + 1] == ':'
      {
        if i >= |head| {
          assert rest[i - |head|] == '\\';
        }
      }
    }
  }

  /** The `-filter_complex` graph of `burn_subtitles`. */
  function BurnFilter(subtitle: string): string
  {
    "[0:v]subtitles='" + EscapeFilterPath(subtitle) + "'[v]"
  }

  /** `burn_subtitles`: nothing is run when the subtitle file does not exist;
      otherwise the filtered video and any audio are mapped and the audio copied. */
  function BurnSubtitles(ffmpeg: string, input: string, output: string, subtitle: string, subtitleExists: bool)
    : (r: Option<seq<string>>)
    ensures r.None? <==> !subtitleExists
    ensures r.Some? ==> Runs(r.value, ffmpeg, output) && Passes(r.value, "-i", input)
    ensures r.Some? ==> Passes(r.value, "-filter_complex", BurnFilter(subtitle))
    ensures r.Some? ==> Passes(r.value, "-map", "[v]") && Passes(r.value, "-map", "0:a?")
    ensures r.Some? ==> Passes(r.value, "-preset", CompressionRatio) && Passes(r.value, "-c:a", "copy")
  {
    if !subtitleExists then None
    else
      var r := [ffmpeg, "-i", input, "-filter_complex", BurnFilter(subtitle), "-map", "[v]", "-map", "0:a?",
                "-preset", CompressionRatio, "-c:a", "copy", output];
      assert OptAt(r, 1, "-i", input) && OptAt(r, 3, "-filter_complex", BurnFilter(subtitle));
      assert OptAt(r, 5, "-map", "[v]") && OptAt(r, 7, "-map", "0:a?");
      assert OptAt(r, 9, "-preset", CompressionRatio) && OptAt(r, 11, "-c:a", "copy");
      Some(r)
  }

  // ---------------------------------------------------------------------------
  // Trims and the fade
  // ---------------------------------------------------------------------------

  function VideoMap(channel: string): string { "0:v:" + channel + "?" }
  function AudioMap(channel: string): string { "0:a:" + channel + "?" }
  function SubtitleMap(channel: string): string { "0:s:" + channel + "?" }

  /** `trim_basic`: seek to `start` both before the input (fast) and after it
      (accurate), stop at `end`, keep timestamps, copy the audio. */
  function TrimBasic(ffmpeg: string, start: string, end: string, input: string, output: string,
                     videoChannel: string, audioChannel: string): (r: seq<string>)
    ensures Runs(r, ffmpeg, output)
    ensures InputOption(r, "-ss", start, input) && InputOption(r, "-to", end, input)
    ensures OutputOption(r, "-ss", start, input) && Gives(r, "-copyts")
    ensures OutputOption(r, "-map", VideoMap(videoChannel), input)
    ensures OutputOption(r, "-map", AudioMap(audioChannel), input)
    ensures OutputOption(r, "-c:a", "copy", input)
  {
    var r := [ffmpeg, "-ss", start, "-to", end, "-copyts", "-i", input]
      + ["-map", VideoMap(videoChannel), "-map", AudioMap(audioChannel)] + ["-c:a", "copy", "-ss", start, output];
    assert OptAt(r, 1, "-ss", start) && OptAt(r, 3, "-to", end) && r[5] == "-copyts" && OptAt(r, 6, "-i", input);
    assert OptAt(r, 8, "-map", VideoMap(videoChannel)) && OptAt(r, 10, "-map", AudioMap(audioChannel));
    assert OptAt(r, 12, "-c:a", "copy") && OptAt(r, 14, "-ss", start);
    r
  }

  /** The `-vf` filter of `trim_with_hard_subs`: backslashes become slashes,
      colons are left as they are. */
  function HardSubsFilter(subtitle: string): string
  {
    "subtitles='" + Replace(subtitle, "\\", "/") + "'"
  }

  /** The ffmpeg run of `trim_with_hard_subs`: like `trim_basic`, with the
      subtitles burnt in and the audio re-encoded to 48 kHz stereo AAC at 320k. */
  function TrimWithHardSubs(ffmpeg: string, start: string, end: string, input: string, output: string,
                            subtitle: string, videoChannel: string, audioChannel: string): (r: seq<string>)
    ensures Runs(r, ffmpeg, output)
    ensures InputOption(r, "-ss", start, input) && InputOption(r, "-to", end, input)
    ensures OutputOption(r, "-ss", start, input) && Gives(r, "-copyts")
    ensures OutputOption(r, "-vf", HardSubsFilter(subtitle), input)
    ensures OutputOption(r, "-map", VideoMap(videoChannel), input)
    ensures OutputOption(r, "-map", AudioMap(audioChannel), input)
    ensures OutputOption(r, "-ac", "2", input) && OutputOption(r, "-c:a", "aac", input)
    ensures OutputOption(r, "-b:a", "320k", input) && OutputOption(r, "-ar", "48000", input)
  {
    var r := [ffmpeg, "-ss", start, "-to", end, "-copyts", "-i", input]
      + ["-vf", HardSubsFilter(subtitle), "-map", VideoMap(videoChannel), "-map", AudioMap(audioChannel)]
      + ["-ac", "2", "-c:a", "aac"] + ["-b:a", "320k", "-ar", "48000"] + ["-ss", start, output];
    assert OptAt(r, 1, "-ss", start) && OptAt(r, 3, "-to", end) && r[5] == "-copyts" && OptAt(r, 6, "-i", input);
    assert OptAt(r, 8, "-vf", HardSubsFilter(subtitle));
    assert OptAt(r, 10, "-map", VideoMap(videoChannel)) && OptAt(r, 12, "-map", AudioMap(audioChannel));
    assert OptAt(r, 14, "-ac", "2") && OptAt(r, 16, "-c:a", "aac") && OptAt(r, 18, "-b:a", "320k");
    assert OptAt(r, 20, "-ar", "48000") && OptAt(r, 22, "-ss", start);
    r
  }

  /** `trim_duration`: seek to `start` on the input, keep `duration`, copy all
      streams and restart the timestamps at zero. */
  function TrimDuration(ffmpeg: string, start: string, duration: string, input: string, output: string,
                        videoChannel: string, audioChannel: string, subtitleChannel: string): (r: seq<string>)
    ensures Runs(r, ffmpeg, output)
    ensures InputOption(r, "-ss", start, input) && OutputOption(r, "-t", duration, input)
    ensures OutputOption(r, "-map", VideoMap(videoChannel), input)
    ensures OutputOption(r, "-map", AudioMap(audioChannel), input)
    ensures OutputOption(r, "-map", SubtitleMap(subtitleChannel), input)
    ensures OutputOption(r, "-reset_timestamps", "1", input) && OutputOption(r, "-c", "copy", input)
  {
    var r := [ffmpeg, "-ss", start, "-i", input, "-t", duration]
      + ["-map", VideoMap(videoChannel), "-map", AudioMap(audioChannel), "-map", SubtitleMap(subtitleChannel)]
      + ["-reset_timestamps", "1", "-c", "copy", output];
    assert OptAt(r, 1, "-ss", start) && OptAt(r, 3, "-i", input) && OptAt(r, 5, "-t", duration);
    assert OptAt(r, 7, "-map", VideoMap(videoChannel)) && OptAt(r, 9, "-map", AudioMap(audioChannel));
    assert OptAt(r, 11, "-map", SubtitleMap(subtitleChannel));
    assert OptAt(r, 13, "-reset_timestamps", "1") && OptAt(r, 15, "-c", "copy");
    r
  }

  /** A fade-out filter: `<kind>=t=out:st=<start>:d=<length>`. */
  function FadeOut(kind: string, start: int, length: int): string
  {
    kind + "=t=out:st=" + IntToString(start) + ":d=" + IntToString(length)
  }

  const FadeLength: int := 1

  /** `fade`: overwrite the output, fading video and audio out over the last
      second of a clip `videoDuration` seconds long. */
  function Fade(ffmpeg: string, input: string, output: string, videoDuration: int): (r: seq<string>)
    ensures Runs(r, ffmpeg, output) && Gives(r, "-y") && Passes(r, "-i", input)
    ensures Passes(r, "-vf", FadeOut("fade", videoDuration - FadeLength, FadeLength))
    ensures Passes(r, "-af", FadeOut("afade", videoDuration - FadeLength, FadeLength))
  {
    var fadeStart := videoDuration - FadeLength;
    var r := [ffmpeg, "-y", "-i", input, "-vf", FadeOut("fade", fadeStart, FadeLength),
              "-af", FadeOut("afade", fadeStart, FadeLength), output];
    assert r[1] == "-y" && OptAt(r, 2, "-i", input);
    assert OptAt(r, 4, "-vf", FadeOut("fade", fadeStart, FadeLength));
    assert OptAt(r, 6, "-af", FadeOut("afade", fadeStart, FadeLength));
    r
  }

  // ---------------------------------------------------------------------------
  // Audio extraction and image + audio composition
  // ---------------------------------------------------------------------------

  /** The codec options `extract_audio` adds for a lower-cased output suffix. */
  function AudioCodecArgs(suffix: string): (r: seq<string>)
    ensures |r| >= 2 && r[0] == "-c:a"
    ensures r[1] == "copy" <==> suffix != ".mp3" && suffix != ".wav" && suffix != ".ogg"
    ensures "-q:a" in r <==> suffix == ".mp3" || suffix == ".ogg"
  {
    if suffix == ".mp3" then ["-c:a", "libmp3lame", "-q:a", "2"]
    else if suffix == ".wav" then ["-c:a", "pcm_s16le"]
    else if suffix == ".ogg" then ["-c:a", "libvorbis", "-q:a", "4"]
    else ["-c:a", "copy"]
  }

  /** `extract_audio`: the command grows from the video-less base by the codec
      options the output's suffix selects, then the output itself. */
  method ExtractAudio(ffmpeg: string, input: string, output: string) returns (task: seq<string>)
    ensures |task| >= 7
    ensures task[..4] == [ffmpeg, "-i", input, "-vn"]
    ensures task[4..|task| - 1] == AudioCodecArgs(Lower(Suffix(Name(output))))
    ensures Runs(task, ffmpeg, output)
    ensures var ext := Lower(Suffix(Name(output)));
      && (ext == ".mp3" ==> Passes(task, "-c:a", "libmp3lame") && Passes(task, "-q:a", "2"))
      && (ext == ".wav" ==> Passes(task, "-c:a", "pcm_s16le"))
      && (ext == ".ogg" ==> Passes(task, "-c:a", "libvorbis") && Passes(task, "-q:a", "4"))
      && (ext != ".mp3" && ext != ".wav" && ext != ".ogg" ==> Passes(task, "-c:a", "copy"))
  {
    var outputExt := Lower(Suffix(Name(output)));
    task := [ffmpeg, "-i", input, "-vn"];
    ghost var base := task;
    if outputExt == ".mp3" {
      task := task + ["-c:a", "libmp3lame", "-q:a", "2"];
      assert task == base + AudioCodecArgs(outputExt);
    } else if outputExt == ".wav" {
      task := task + ["-c:a", "pcm_s16le"];
      assert task == base + AudioCodecArgs(outputExt);
    } else if outputExt == ".ogg" {
      task := task + ["-c:a", "libvorbis", "-q:a", "4"];
      assert task == base + AudioCodecArgs(outputExt);
    } else {
      task := task + ["-c:a", "copy"];
      assert task == base + AudioCodecArgs(outputExt);
    }
    task := task + [output];
    SplitThree(base, AudioCodecArgs(outputExt), output);
    CodecOptionsPassed(base, outputExt, output);
  }

  /** The codec options, between a four-argument base and the output, are
      passed as flag and value. */
  lemma CodecOptionsPassed(base: seq<string>, suffix: string, output: string)
    requires |base| == 4
    ensures var task := base + AudioCodecArgs(suffix) + [output];
      && (suffix == ".mp3" ==> Passes(task, "-c:a", "libmp3lame") && Passes(task, "-q:a", "2"))
      && (suffix == ".wav" ==> Passes(task, "-c:a", "pcm_s16le"))
      && (suffix == ".ogg" ==> Passes(task, "-c:a", "libvorbis") && Passes(task, "-q:a", "4"))
      && (suffix != ".mp3" && suffix != ".wav" && suffix != ".ogg" ==> Passes(task, "-c:a", "copy"))
  {
    var task := base + AudioCodecArgs(suffix) + [output];
    assert OptAt(task, 4, "-c:a", task[5]);
    if suffix == ".mp3" || suffix == ".ogg" {
      assert OptAt(task, 6, "-q:a", task[7]);
    }
  }

  /** Slicing a command made of a prefix, a middle and a last argument. */
  lemma SplitThree(prefix: seq<string>, middle: seq<string>, last: string)
    ensures (prefix + middle + [last])[..|prefix|] == prefix
    ensures (prefix + middle + [last])[|prefix|..|prefix + middle + [last]| - 1] == middle
  {
    var whole := prefix + middle + [last];
    assert whole[..|prefix|] == prefix;
    assert whole[|prefix|..|whole| - 1] == middle;
  }

  /** `image_audio_to_video`: nothing is run unless the probed audio duration is
      positive; the image is looped for as long as the audio lasts. */
  function ImageAudioToVideo(ffmpeg: string, image: string, audio: string, output: string, audioDuration: real)
    : (r: Option<seq<string>>)
    ensures r.None? <==> audioDuration <= 0.0
    ensures r.Some? ==> Runs(r.value, ffmpeg, output) && Gives(r.value, "-y") && Gives(r.value, "-shortest")
    ensures r.Some? ==> InputOption(r.value, "-loop", "1", image) && Passes(r.value, "-i", audio)
    ensures r.Some? ==> Passes(r.value, "-c:v", "libx264") && Passes(r.value, "-tune", "stillimage")
    ensures r.Some? ==> Passes(r.value, "-c:a", "aac") && Passes(r.value, "-b:a", "192k")
    ensures r.Some? ==> Passes(r.value, "-pix_fmt", "yuv420p") && Passes(r.value, "-r", "30")
  {
    if audioDuration <= 0.0 then None
    else
      var r := [ffmpeg, "-y", "-loop", "1", "-i", image, "-i", audio]
        + ["-c:v", "libx264", "-tune", "stillimage"] + ["-c:a", "aac", "-b:a", "192k"]
        + ["-pix_fmt", "yuv420p", "-shortest", "-r", "30", output];
      assert r[1] == "-y" && OptAt(r, 2, "-loop", "1") && OptAt(r, 4, "-i", image) && OptAt(r, 6, "-i", audio);
      assert OptAt(r, 8, "-c:v", "libx264") && OptAt(r, 10, "-tune", "stillimage") && OptAt(r, 12, "-c:a", "aac");
      assert OptAt(r, 14, "-b:a", "192k") && OptAt(r, 16, "-pix_fmt", "yuv420p") && r[18] == "-shortest";
      assert OptAt(r, 19, "-r", "30");
      Some(r)
  }
}
