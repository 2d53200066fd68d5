/** The state behind the main window: the `MediaInfo` record of
    `lib/media_info.py` and the handlers of `lib/video_window.py` that write
    it. The Qt widgets themselves are not modelled; the two labels that show
    the chosen file and subtitle are kept as text because the handlers write
    them together with the record. */
module Session {
  import opened PyStr
  import opened PyPath
  import opened Encoding

  // ---------------------------------------------------------------------------
  // MediaInfo (lib/media_info.py:5-12)
  // ---------------------------------------------------------------------------

  /** What the window knows about the current media. Every field is text, as
      the dataclass declares it; `duration` is not a dataclass field but an
      attribute that `duration_changed` adds, absent until the player first
      reports a duration. */
  class MediaInfo {
    var fileLocation: string
    var subtitleLocation: string
    var audioChannel: string
    var subtitleChannel: string
    var trimStart: string
    var trimEnd: string
    var duration: Option<int>

    /** The dataclass defaults. */
    constructor()
      ensures fileLocation == "" && subtitleLocation == ""
      ensures audioChannel == "0" && subtitleChannel == "0"
      ensures trimStart == "00:00:00" && trimEnd == "00:00:00"
      ensures duration == None
    {
      fileLocation := "";
      subtitleLocation := "";
      audioChannel := "0";
      subtitleChannel := "0";
      trimStart := "00:00:00";
      trimEnd := "00:00:00";
      duration := None;
    }
  }

  /** The default trim bounds are a valid clock reading, and the trim length
      they give is zero seconds. */
  lemma {:induction false} DefaultTrimIsEmpty()
    ensures ParseClock("00:00:00") == Some(Clock(0, 0, 0))
    ensures CalculateDuration("00:00:00", "00:00:00") == Some("0")
  {
    assert ParseClock("00:00:00") == Some(Clock(0, 0, 0)) by {
      assert "00:00:00" == "00" + ":" + "00" + ":" + "00";
      ParseClockFields("00", "00", "00");
      assert AllDigits("00") && DigitsValue("00") == 10 * DigitsValue("0") + DigitValue('0');
      assert DigitsValue("0") == 10 * DigitsValue("") + DigitValue('0');
    }
    assert IntToString(0) == "0";
  }

  // ---------------------------------------------------------------------------
  // trim_time_format (lib/video_window.py:49-54)
  // ---------------------------------------------------------------------------

  /** The time of a time-edit value as `HH:MM:SS`, each field zero-filled to two
      digits. A Qt time always has hours below 24 and minutes and seconds below
      60. */
  function TrimTimeFormat(c: Clock): (r: string)
    requires ValidClock(c)
    ensures |r| == 8 && r[2] == ':' && r[5] == ':'
    ensures AllDigits(r[..2]) && AllDigits(r[3..5]) && AllDigits(r[6..])
  {
    Pad2Denotes(c.hour);
    Pad2Denotes(c.minute);
    Pad2Denotes(c.second);
    var r := Pad2(c.hour) + ":" + Pad2(c.minute) + ":" + Pad2(c.second);
    assert r[..2] == Pad2(c.hour) && r[3..5] == Pad2(c.minute) && r[6..] == Pad2(c.second);
    r
  }

  /** What `trim_time_format` writes, `calculate_duration` reads back as the
      same clock. */
  lemma {:induction false} TrimTimeFormatRoundTrip(c: Clock)
    requires ValidClock(c)
    ensures ParseClock(TrimTimeFormat(c)) == Some(c)
  {
    Pad2Denotes(c.hour);
    Pad2Denotes(c.minute);
    Pad2Denotes(c.second);
    assert ':' !in Pad2(c.hour) && ':' !in Pad2(c.minute) && ':' !in Pad2(c.second);
    ParseClockFields(Pad2(c.hour), Pad2(c.minute), Pad2(c.second));
  }

  /** The trim length computed from two time-edit values is the difference of
      their seconds since midnight, negative when the end is before the start. */
  lemma {:induction false} TrimLengthOfFormattedTimes(end: Clock, start: Clock)
    requires ValidClock(end) && ValidClock(start)
    ensures CalculateDuration(TrimTimeFormat(end), TrimTimeFormat(start)).Some?
    ensures ParseInt(CalculateDuration(TrimTimeFormat(end), TrimTimeFormat(start)).value)
      == Some(Seconds(end) - Seconds(start))
  {
    TrimTimeFormatRoundTrip(end);
    TrimTimeFormatRoundTrip(start);
    CalculateDurationValue(TrimTimeFormat(end), TrimTimeFormat(start));
  }

  // ---------------------------------------------------------------------------
  // set_media's subtitle sibling (lib/video_window.py:288-295)
  // ---------------------------------------------------------------------------

  /** `f"{file_location[:-4]}.srt"`: the last four characters (a dot and a
      three-letter extension for the files the open dialog offers) replaced by
      `.srt`. */
  function SrtSibling(fileLocation: string): (r: string)
    ensures |r| >= 4 && r[|r| - 4..] == ".srt"
    ensures r[..|r| - 4] == fileLocation[..if |fileLocation| >= 4 then |fileLocation| - 4 else 0]
  {
    SliceTo(fileLocation, -4) + ".srt"
  }

  /** For a path that ends in a four-character extension the sibling is the
      same path with that extension replaced; a shorter path is dropped whole. */
  lemma SrtSiblingReplacesExtension(path: string, ext: string)
    requires |ext| == 4
    ensures SrtSibling(path + ext) == path + ".srt"
    ensures |ext| > |path| ==> SrtSibling(path) == ".srt"
  {
    assert (path + ext)[..|path|] == path;
  }

  // ---------------------------------------------------------------------------
  // VideoWindow (lib/video_window.py:61-476)
  // ---------------------------------------------------------------------------

  /** The main window, reduced to its record and the two location labels. */
  class VideoWindow {
    const mediaInfo: MediaInfo
    var fileLabel: string
    var subtitleLabel: string

    constructor()
      ensures fresh(mediaInfo)
      ensures mediaInfo.fileLocation == "" && mediaInfo.subtitleLocation == ""
      ensures mediaInfo.audioChannel == "0" && mediaInfo.subtitleChannel == "0"
      ensures mediaInfo.trimStart == "00:00:00" && mediaInfo.trimEnd == "00:00:00"
      ensures mediaInfo.duration == None
      ensures fileLabel == "No file has been selected"
      ensures subtitleLabel == "No subtitle has been selected"
    {
      mediaInfo := new MediaInfo();
      fileLabel := "No file has been selected";
      subtitleLabel := "No subtitle has been selected";
    }

    /** `set_media`: with no file chosen nothing changes; otherwise the file
        label shows the file and, when the `.srt` sibling exists among
        `existing`, it becomes the subtitle. */
    method SetMedia(existing: set<string>)
      modifies this, mediaInfo
      ensures mediaInfo.fileLocation == old(mediaInfo.fileLocation)
      ensures mediaInfo.audioChannel == old(mediaInfo.audioChannel)
      ensures mediaInfo.subtitleChannel == old(mediaInfo.subtitleChannel)
      ensures mediaInfo.trimStart == old(mediaInfo.trimStart)
      ensures mediaInfo.trimEnd == old(mediaInfo.trimEnd)
      ensures mediaInfo.duration == old(mediaInfo.duration)
      ensures fileLabel == if mediaInfo.fileLocation == "" then old(fileLabel) else mediaInfo.fileLocation
      ensures mediaInfo.fileLocation != "" && SrtSibling(mediaInfo.fileLocation) in existing ==>
        mediaInfo.subtitleLocation == subtitleLabel == SrtSibling(mediaInfo.fileLocation)
      ensures mediaInfo.fileLocation == "" || SrtSibling(mediaInfo.fileLocation) !in existing ==>
        mediaInfo.subtitleLocation == old(mediaInfo.subtitleLocation) && subtitleLabel == old(subtitleLabel)
    {
      if mediaInfo.fileLocation != "" {
        fileLabel := mediaInfo.fileLocation;
        var sibling := SrtSibling(mediaInfo.fileLocation);
        if sibling in existing {
          subtitleLabel := sibling;
          mediaInfo.subtitleLocation := sibling;
        }
      }
    }

    /** `open_video`: the chosen file (empty when the dialog is cancelled)
        becomes the file location, then `set_media` runs. */
    method OpenVideo(chosen: string, existing: set<string>)
      modifies this, mediaInfo
      ensures mediaInfo.fileLocation == chosen
      ensures mediaInfo.audioChannel == old(mediaInfo.audioChannel)
      ensures mediaInfo.subtitleChannel == old(mediaInfo.subtitleChannel)
      ensures mediaInfo.trimStart == old(mediaInfo.trimStart)
      ensures mediaInfo.trimEnd == old(mediaInfo.trimEnd)
      ensures mediaInfo.duration == old(mediaInfo.duration)
      ensures fileLabel == if chosen == "" then old(fileLabel) else chosen
      ensures chosen != "" && SrtSibling(chosen) in existing ==>
        mediaInfo.subtitleLocation == subtitleLabel == SrtSibling(chosen)
      ensures chosen == "" || SrtSibling(chosen) !in existing ==>
        mediaInfo.subtitleLocation == old(mediaInfo.subtitleLocation) && subtitleLabel == old(subtitleLabel)
    {
      mediaInfo.fileLocation := chosen;
      SetMedia(existing);
    }

    /** `open_subtitle`: the chosen subtitle is not stored; when one was chosen
        the label is set to the subtitle location already on record. */
    method OpenSubtitle(chosen: string)
      modifies this
      ensures unchanged(mediaInfo)
      ensures fileLabel == old(fileLabel)
      ensures subtitleLabel == if chosen != "" then mediaInfo.subtitleLocation else old(subtitleLabel)
    {
      if chosen != "" {
        subtitleLabel := mediaInfo.subtitleLocation;
      }
    }

    /** `duration_changed`: the player's duration in milliseconds is recorded. */
    method DurationChanged(duration: int)
      modifies mediaInfo
      ensures mediaInfo.duration == Some(duration)
      ensures mediaInfo.fileLocation == old(mediaInfo.fileLocation)
      ensures mediaInfo.subtitleLocation == old(mediaInfo.subtitleLocation)
      ensures mediaInfo.audioChannel == old(mediaInfo.audioChannel)
      ensures mediaInfo.subtitleChannel == old(mediaInfo.subtitleChannel)
      ensures mediaInfo.trimStart == old(mediaInfo.trimStart)
      ensures mediaInfo.trimEnd == old(mediaInfo.trimEnd)
    {
      mediaInfo.duration := Some(duration);
    }

    /** `audio_channel_value_change`: the spin box value is recorded; every
        use formats it into text, so it is kept as its decimal text. */
    method AudioChannelValueChange(value: int)
      modifies mediaInfo
      ensures ParseInt(mediaInfo.audioChannel) == Some(value)
      ensures mediaInfo.audioChannel == IntToString(value)
      ensures mediaInfo.fileLocation == old(mediaInfo.fileLocation)
      ensures mediaInfo.subtitleLocation == old(mediaInfo.subtitleLocation)
      ensures mediaInfo.subtitleChannel == old(mediaInfo.subtitleChannel)
      ensures mediaInfo.trimStart == old(mediaInfo.trimStart)
      ensures mediaInfo.trimEnd == old(mediaInfo.trimEnd)
      ensures mediaInfo.duration == old(mediaInfo.duration)
    {
      IntToStringRoundTrip(value);
      mediaInfo.audioChannel := IntToString(value);
    }

    /** `subtitle_channel_value_change`: likewise for the subtitle channel. */
    method SubtitleChannelValueChange(value: int)
      modifies mediaInfo
      ensures ParseInt(mediaInfo.subtitleChannel) == Some(value)
      ensures mediaInfo.subtitleChannel == IntToString(value)
      ensures mediaInfo.fileLocation == old(mediaInfo.fileLocation)
      ensures mediaInfo.subtitleLocation == old(mediaInfo.subtitleLocation)
      ensures mediaInfo.audioChannel == old(mediaInfo.audioChannel)
      ensures mediaInfo.trimStart == old(mediaInfo.trimStart)
      ensures mediaInfo.trimEnd == old(mediaInfo.trimEnd)
      ensures mediaInfo.duration == old(mediaInfo.duration)
    {
      IntToStringRoundTrip(value);
      mediaInfo.subtitleChannel := IntToString(value);
    }

    /** `trim_start_value_change`: the edited time is recorded as `HH:MM:SS`,
        which reads back as the same clock. */
    method TrimStartValueChange(value: Clock)
      requires ValidClock(value)
      modifies mediaInfo
      ensures mediaInfo.trimStart == TrimTimeFormat(value)
      ensures ParseClock(mediaInfo.trimStart) == Some(value)
      ensures mediaInfo.fileLocation == old(mediaInfo.fileLocation)
      ensures mediaInfo.subtitleLocation == old(mediaInfo.subtitleLocation)
      ensures mediaInfo.audioChannel == old(mediaInfo.audioChannel)
      ensures mediaInfo.subtitleChannel == old(mediaInfo.subtitleChannel)
      ensures mediaInfo.trimEnd == old(mediaInfo.trimEnd)
      ensures mediaInfo.duration == old(mediaInfo.duration)
    {
      TrimTimeFormatRoundTrip(value);
      mediaInfo.trimStart := TrimTimeFormat(value);
    }

    /** `trim_end_value_change`: likewise for the end of the trim. */
    method TrimEndValueChange(value: Clock)
      requires ValidClock(value)
      modifies mediaInfo
      ensures mediaInfo.trimEnd == TrimTimeFormat(value)
      ensures ParseClock(mediaInfo.trimEnd) == Some(value)
      ensures mediaInfo.fileLocation == old(mediaInfo.fileLocation)
      ensures mediaInfo.subtitleLocation == old(mediaInfo.subtitleLocation)
      ensures mediaInfo.audioChannel == old(mediaInfo.audioChannel)
      ensures mediaInfo.subtitleChannel == old(mediaInfo.subtitleChannel)
      ensures mediaInfo.trimStart == old(mediaInfo.trimStart)
      ensures mediaInfo.duration == old(mediaInfo.duration)
    {
      TrimTimeFormatRoundTrip(value);
      mediaInfo.trimEnd := TrimTimeFormat(value);
    }
  }
}
