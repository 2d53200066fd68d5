/** The string logic of `lib/encoding.py` around its ffmpeg calls: file-name
    cleaning, clock-time subtraction, the subtitle codec to extension mapping,
    the two path conversions used for subtitle filters, and the two batch
    loops over a media folder. */
module Encoding {
  import opened PyStr
  import opened PyPath
  import opened Commands

  // ---------------------------------------------------------------------------
  // clean_text (lib/encoding.py:51-62)
  // ---------------------------------------------------------------------------

  /** Lower-case, strip, and then six replacements in a fixed order. */
  function CleanText(text: string): (r: string)
    ensures |r| <= |text|
  {
    var s0 := Strip(Lower(text));
    var s1 := Replace(s0, " ", "_");
    var s2 := Replace(s1, "'", "");
    var s3 := Replace(s2, "-", "");
    var s4 := Replace(s3, ",", "_");
    var s5 := Replace(s4, "__", "_");
    ReplaceNoLonger(s0, " ", "_");
    ReplaceNoLonger(s1, "'", "");
    ReplaceNoLonger(s2, "-", "");
    ReplaceNoLonger(s3, ",", "_");
    ReplaceNoLonger(s4, "__", "_");
    ReplaceNoLonger(s5, "’", "'");
    Replace(s5, "’", "'")
  }

  /** A cleaned name holds no space, hyphen, comma or curly apostrophe. */
  lemma CleanTextSeparators(text: string)
    ensures ' ' !in CleanText(text) && '-' !in CleanText(text) && ',' !in CleanText(text)
    ensures '’' !in CleanText(text)
  {
    var s0 := Strip(Lower(text));
    var s1 := Replace(s0, " ", "_");
    var s2 := Replace(s1, "'", "");
    var s3 := Replace(s2, "-", "");
    var s4 := Replace(s3, ",", "_");
    var s5 := Replace(s4, "__", "_");
    assert ' ' !in s2 by {
      ReplaceRemoves(s0, ' ', "_");
      ReplaceKeepsOut(s1, "'", "", ' ');
    }
    assert ' ' !in s3 && '-' !in s3 by {
      ReplaceKeepsOut(s2, "-", "", ' ');
      ReplaceRemoves(s2, '-', "");
    }
    assert ' ' !in s4 && '-' !in s4 && ',' !in s4 by {
      ReplaceKeepsOut(s3, ",", "_", ' ');
      ReplaceKeepsOut(s3, ",", "_", '-');
      ReplaceRemoves(s3, ',', "_");
    }
    assert ' ' !in s5 && '-' !in s5 && ',' !in s5 by {
      ReplaceKeepsOut(s4, "__", "_", ' ');
      ReplaceKeepsOut(s4, "__", "_", '-');
      ReplaceKeepsOut(s4, "__", "_", ',');
    }
    ReplaceKeepsOut(s5, "’", "'", ' ');
    ReplaceKeepsOut(s5, "’", "'", '-');
    ReplaceKeepsOut(s5, "’", "'", ',');
    ReplaceRemoves(s5, '’', "'");
  }

  /** Every character of a cleaned name is a lower-cased character of the input,
      an underscore or an ASCII apostrophe; so none is an upper-case ASCII letter. */
  lemma CleanTextLowerCase(text: string, c: char)
    requires c in CleanText(text)
    ensures c in Lower(text) || c == '_' || c == '\''
    ensures !IsUpperAscii(c)
  {
    var s0 := Strip(Lower(text));
    var s1 := Replace(s0, " ", "_");
    var s2 := Replace(s1, "'", "");
    var s3 := Replace(s2, "-", "");
    var s4 := Replace(s3, ",", "_");
    var s5 := Replace(s4, "__", "_");
    ReplaceChars(s5, "’", "'", c);
    if c in s5 {
      ReplaceChars(s4, "__", "_", c);
      if c in s4 {
        ReplaceChars(s3, ",", "_", c);
        if c in s3 {
          ReplaceChars(s2, "-", "", c);
          ReplaceChars(s1, "'", "", c);
          if c in s1 {
            ReplaceChars(s0, " ", "_", c);
            if c in s0 {
              StripChars(Lower(text), c);
            }
          }
        }
      }
    }
    LowerHasNoUpper(text);
  }

  /** Cleaning twice differs from cleaning once: a run of three underscores
      loses only one of them per pass. */
  lemma CleanTextUnderscoresNotIdempotent()
    ensures CleanText("___") == "__"
    ensures CleanText(CleanText("___")) == "_"
  {
    assert Lower("___") == "___";
    assert Strip("___") == "___";
    assert Replace("___", "__", "_") == "__" by {
      assert Replace("_", "__", "_") == "_";
    }
    assert Replace("__", "__", "_") == "_" by {
      assert Replace("", "__", "_") == "";
    }
  }

  /** A curly apostrophe survives the first pass as an ASCII one, which the
      second pass deletes. */
  lemma CleanTextApostropheNotIdempotent()
    ensures CleanText("’") == "'"
    ensures CleanText(CleanText("’")) == ""
  {
    assert Lower("’") == "’";
    assert Strip("’") == "’";
    assert Lower("'") == "'";
    assert Strip("'") == "'";
  }

  // ---------------------------------------------------------------------------
  // calculate_duration (lib/encoding.py:133-138)
  // ---------------------------------------------------------------------------

  /** A time of day as `datetime.strptime(t, "%H:%M:%S")` reads it. */
  datatype Clock = Clock(hour: nat, minute: nat, second: nat)

  predicate ValidClock(c: Clock)
  {
    c.hour < 24 && c.minute < 60 && c.second < 60
  }

  function Seconds(c: Clock): nat
  {
    3600 * c.hour + 60 * c.minute + c.second
  }

  /** One `%H`, `%M` or `%S` field: one or two ASCII digits, at most `max`. */
  function ParseField(f: string, max: nat): (r: Option<nat>)
    ensures r.Some? ==> r.value <= max
    ensures r.Some? <==> 1 <= |f| <= 2 && AllDigits(f) && DigitsValue(f) <= max
  {
    if 1 <= |f| <= 2 && AllDigits(f) && DigitsValue(f) <= max then Some(DigitsValue(f)) else None
  }

  /** The `%H:%M:%S` reading: three colon-separated fields with hours up to 23
      and minutes and seconds up to 59 (a 60 or 61 in the seconds passes the
      pattern but is refused when the `datetime` is built). `None` is the
      `ValueError` that `strptime` raises. */
  function ParseClock(t: string): (r: Option<Clock>)
    ensures r.Some? ==> ValidClock(r.value)
  {
    var parts := Split(t, ':');
    if |parts| != 3 then None
    else
      match (ParseField(parts[0], 23), ParseField(parts[1], 59), ParseField(parts[2], 59))
      case (Some(h), Some(m), Some(s)) => Some(Clock(h, m, s))
      case _ => None
  }

  /** `calculate_duration(end, start)`: `None` when either time does not parse,
      otherwise the decimal text of the difference in seconds. */
  function CalculateDuration(end: string, start: string): (r: Option<string>)
    ensures r.Some? <==> ParseClock(end).Some? && ParseClock(start).Some?
  {
    match (ParseClock(end), ParseClock(start))
    case (Some(e), Some(s)) => Some(IntToString(Seconds(e) - Seconds(s)))
    case _ => None
  }

  /** The text of a computed duration reads back as the difference in
      seconds, and starts with `-` exactly when the end is before the start. */
  lemma CalculateDurationValue(end: string, start: string)
    requires CalculateDuration(end, start).Some?
    ensures var diff := Seconds(ParseClock(end).value) - Seconds(ParseClock(start).value);
      var text := CalculateDuration(end, start).value;
      ParseInt(text) == Some(diff) && text != [] && (text[0] == '-' <==> diff < 0)
  {
    IntToStringRoundTrip(Seconds(ParseClock(end).value) - Seconds(ParseClock(start).value));
  }

  /** A field reads as `n` exactly when it is `n` written out, either as
      `str(n)` or zero-filled to two digits, and `n` is within the bound. */
  lemma ParseFieldText(f: string, max: nat, n: nat)
    requires max < 100
    ensures ParseField(f, max) == Some(n) <==> n <= max && (f == NatToString(n) || f == Pad2(n))
  {
    if n <= max && (f == NatToString(n) || f == Pad2(n)) {
      if f == NatToString(n) {
        NatToStringDenotes(n);
        if n >= 10 {
          assert NatToString(n / 10) == [DigitChar(n / 10)];
        }
      } else {
        Pad2Denotes(n);
      }
    }
    if ParseField(f, max) == Some(n) {
      ParsedFieldIsText(f, n);
    }
  }

  /** One or two digits are `str` of the number they denote, or its
      zero-filled form. */
  lemma ParsedFieldIsText(f: string, n: nat)
    requires 1 <= |f| <= 2 && AllDigits(f) && DigitsValue(f) == n
    ensures f == NatToString(n) || f == Pad2(n)
  {
    if |f| == 1 {
      assert f == [f[0]] && f[..0] == [];
      assert f == [DigitChar(DigitValue(f[0]))];
    } else {
      assert f == [f[0], f[1]];
      var hi, lo := DigitValue(f[0]), DigitValue(f[1]);
      DigitsValueTwo(f[0], f[1]);
      assert DigitChar(hi) == f[0] && DigitChar(lo) == f[1];
      if hi == 0 {
        assert NatToString(n) == [DigitChar(lo)];
        assert f == "0" + [DigitChar(lo)];
      } else {
        assert n / 10 == hi && n % 10 == lo;
        assert NatToString(n / 10) == [DigitChar(hi)];
      }
    }
  }

  /** Three fields of one or two digits joined by colons are read field by field. */
  lemma {:induction false} ParseClockFields(hh: string, mm: string, ss: string)
    requires ':' !in hh && ':' !in mm && ':' !in ss
    ensures ParseClock(hh + ":" + mm + ":" + ss) ==
      match (ParseField(hh, 23), ParseField(mm, 59), ParseField(ss, 59))
      case (Some(h), Some(m), Some(s)) => Some(Clock(h, m, s))
      case _ => None
  {
    var t := hh + ":" + mm + ":" + ss;
    assert t == hh + [':'] + (mm + [':'] + ss);
    SplitJoin(hh, ':', mm + [':'] + ss);
    SplitJoin(mm, ':', ss);
    SplitNone(ss, ':');
    assert Split(t, ':') == [hh, mm, ss];
  }

  /** An hour above 23, or a minute or second above 59, is refused. */
  lemma OutOfRangeRejected(hh: string, mm: string, ss: string)
    requires AllDigits(hh) && AllDigits(mm) && AllDigits(ss)
    requires DigitsValue(hh) > 23 || DigitsValue(mm) > 59 || DigitsValue(ss) > 59
    ensures ParseClock(hh + ":" + mm + ":" + ss) == None
    ensures CalculateDuration(hh + ":" + mm + ":" + ss, "00:00:00") == None
  {
    ParseClockFields(hh, mm, ss);
  }

  // ---------------------------------------------------------------------------
  // get_subtitle_format (lib/encoding.py:103-130)
  // ---------------------------------------------------------------------------

  /** What the ffprobe call reports: the process failed, its output is not
      JSON, or the codec names of the selected subtitle streams. */
  datatype ProbeReport = ProbeFailed | NotJson | Streams(codecs: seq<string>)

  /** The file extension for the first reported subtitle stream, `None` on any
      failure (including a report with no stream at all). */
  function SubtitleFormat(report: ProbeReport): (r: Option<string>)
    ensures r.None? <==> !report.Streams? || report.codecs == []
    ensures r.Some? && report.codecs[0] == "ass" ==> r.value == "ass"
    ensures r.Some? && report.codecs[0] == "subrip" ==> r.value == "srt"
    ensures r.Some? && report.codecs[0] != "subrip" ==> r.value == report.codecs[0]
  {
    match report
    case Streams(codecs) =>
      if codecs == [] then None
      else if codecs[0] == "ass" then Some("ass")
      else if codecs[0] == "subrip" then Some("srt")
      else Some(codecs[0])
    case _ => None
  }

  /** `f"{...}"` of the mapping's result: a failure shows as the text `None`. */
  function ExtensionText(ext: Option<string>): string
  {
    match ext
    case Some(e) => e
    case None => "None"
  }

  // ---------------------------------------------------------------------------
  // Subtitle paths in filter graphs (lib/encoding.py:252, 441)
  // ---------------------------------------------------------------------------

  /** Each backslash is immediately followed by a colon, and each colon is
      immediately preceded by a backslash. */
  predicate ColonsEscaped(e: string)
  {
    (forall i | 0 <= i < |e| && e[i] == '\\' :: i + 1 < |e| && e[i + 1] == ':')
    && (forall i | 0 <= i < |e| && e[i] == ':' :: i > 0 && e[i - 1] == '\\')
  }

  lemma ColonsEscapedAppend(a: string, b: string)
    requires ColonsEscaped(a) && ColonsEscaped(b)
    ensures ColonsEscaped(a + b)
  {
    var e := a + b;
    forall i | 0 <= i < |e| && e[i] == '\\'
      ensures i + 1 < |e| && e[i + 1] == ':'
    {
      if i < |a| { assert a[i] == '\\'; } else { assert b[i - |a|] == '\\'; }
    }
    forall i | 0 <= i < |e| && e[i] == ':'
      ensures i > 0 && e[i - 1] == '\\'
    {
      if i < |a| { assert a[i] == ':'; } else { assert b[i - |a|] == ':'; }
    }
  }

  lemma {:induction false} SubstColonEscapes(q: string)
    requires '\\' !in q
    ensures ColonsEscaped(Subst(q, ':', "\\:"))
  {
    if q != [] {
      SubstColonEscapes(q[1..]);
      var head := if q[0] == ':' then "\\:" else [q[0]];
      assert q[0] in q;
      ColonsEscapedAppend(head, Subst(q[1..], ':', "\\:"));
    }
  }

  /** The burn-in escaping pairs every backslash with a following colon and
      every colon with a preceding backslash. */
  lemma EscapePairsColons(p: string)
    ensures ColonsEscaped(EscapeFilterPath(p))
  {
    var q := Replace(p, "\\", "/");
    ReplaceRemoves(p, '\\', "/");
    ReplaceOneChar(q, ':', "\\:");
    SubstColonEscapes(q);
  }

  /** Replacing each `\:` by `:`. */
  function Unescape(e: string): string
  {
    Replace(e, "\\:", ":")
  }

  lemma {:induction false} UnescapeSubst(q: string)
    requires '\\' !in q
    ensures Unescape(Subst(q, ':', "\\:")) == q
  {
    if q != [] {
      assert q[0] in q;
      UnescapeSubst(q[1..]);
      var rest := Subst(q[1..], ':', "\\:");
      if q[0] == ':' {
        assert Subst(q, ':', "\\:") == "\\:" + rest;
        assert ("\\:" + rest)[2..] == rest;
      } else {
        var s := [q[0]] + rest;
        assert Subst(q, ':', "\\:") == s;
        if |s| >= 2 {
          assert s[..2] != "\\:" by { assert s[0] == q[0]; }
          assert s[1..] == rest;
        } else {
          assert rest == [];
        }
      }
      assert [q[0]] + q[1..] == q;
    }
  }

  /** Undoing the colon escape gives back the input with its backslashes
      turned into slashes. */
  lemma UnescapeEscape(p: string)
    ensures Unescape(EscapeFilterPath(p)) == Replace(p, "\\", "/")
  {
    var q := Replace(p, "\\", "/");
    ReplaceRemoves(p, '\\', "/");
    ReplaceOneChar(q, ':', "\\:");
    UnescapeSubst(q);
  }

  /** `Replace(s, [a], [b])` changes each `a` into `b` and nothing else. */
  lemma {:induction false} SubstPointwise(s: string, a: char, b: char)
    ensures |Subst(s, a, [b])| == |s|
    ensures forall i | 0 <= i < |s| :: Subst(s, a, [b])[i] == if s[i] == a then b else s[i]
  {
    if s != [] {
      SubstPointwise(s[1..], a, b);
    }
  }

  lemma {:induction false} SubstGrows(s: string, a: char, rep: string)
    requires |rep| >= 1
    ensures |Subst(s, a, rep)| >= |s|
    ensures a in s && |rep| >= 2 ==> |Subst(s, a, rep)| > |s|
  {
    if s != [] {
      SubstGrows(s[1..], a, rep);
      if a in s && s[0] != a {
        assert a in s[1..] by {
          var k :| 0 <= k < |s| && s[k] == a;
          assert s[1..][k - 1] == a;
        }
      }
    }
  }

  lemma {:induction false} SubstKeepsRep(s: string, a: char, rep: string, c: char)
    requires a in s && c in rep
    ensures c in Subst(s, a, rep)
  {
    if s[0] != a {
      assert a in s[1..] by {
        var k :| 0 <= k < |s| && s[k] == a;
        assert s[1..][k - 1] == a;
      }
      SubstKeepsRep(s[1..], a, rep, c);
    }
  }

  /** Escaping a path with a colon lengthens it and keeps a colon in it. */
  lemma EscapeLengthens(x: string)
    requires ':' in x
    ensures |EscapeFilterPath(x)| > |x| && ':' in EscapeFilterPath(x)
  {
    var q := Replace(x, "\\", "/");
    ReplaceOneChar(x, '\\', "/");
    SubstPointwise(x, '\\', '/');
    var k :| 0 <= k < |x| && x[k] == ':';
    assert q[k] == ':';
    ReplaceOneChar(q, ':', "\\:");
    SubstGrows(q, ':', "\\:");
    SubstKeepsRep(q, ':', "\\:", ':');
  }

  /** Escaping an escaped path changes it again as soon as it holds a colon:
      the escape is not idempotent. */
  lemma EscapeTwice(p: string)
    requires ':' in p
    ensures EscapeFilterPath(p) != p
    ensures EscapeFilterPath(EscapeFilterPath(p)) != EscapeFilterPath(p)
  {
    EscapeLengthens(p);
    EscapeLengthens(EscapeFilterPath(p));
  }

  /** The hard-subs filter path only turns backslashes into slashes: colons
      stay unescaped, unlike the burn-in escape. */
  lemma HardSubsPathOnlySlashes(p: string)
    ensures |Replace(p, "\\", "/")| == |p|
    ensures forall i | 0 <= i < |p| :: Replace(p, "\\", "/")[i] == if p[i] == '\\' then '/' else p[i]
    ensures ':' in p ==> ':' in Replace(p, "\\", "/") && !ColonsEscaped(Replace(p, "\\", "/"))
  {
    ReplaceOneChar(p, '\\', "/");
    SubstPointwise(p, '\\', '/');
    var q := Replace(p, "\\", "/");
    if ':' in p {
      var k :| 0 <= k < |p| && p[k] == ':';
      assert q[k] == ':';
      ReplaceRemoves(p, '\\', "/");
      assert k > 0 ==> q[k - 1] != '\\' by {
        if k > 0 { assert q[k - 1] in q; }
      }
    }
  }

  // ---------------------------------------------------------------------------
  // The batch loops: one call per selected directory entry, in listing order
  // ---------------------------------------------------------------------------

  /** The calls `f(x)` for the entries `x` of `xs` that `keep` selects, in order. */
  function FilterMap<T, U>(xs: seq<T>, keep: T -> bool, f: T -> U): (ys: seq<U>)
    ensures |ys| <= |xs|
  {
    if xs == [] then []
    else FilterMap(xs[..|xs| - 1], keep, f) + (if keep(xs[|xs| - 1]) then [f(xs[|xs| - 1])] else [])
  }

  /** A call is made exactly for each selected entry. */
  lemma {:induction false} FilterMapExactly<T, U>(xs: seq<T>, keep: T -> bool, f: T -> U, y: U)
    ensures y in FilterMap(xs, keep, f) <==> exists x | x in xs :: keep(x) && y == f(x)
  {
    if xs != [] {
      var init, last := xs[..|xs| - 1], xs[|xs| - 1];
      FilterMapExactly(init, keep, f, y);
      assert xs == init + [last];
      if y in FilterMap(xs, keep, f) {
        if y !in FilterMap(init, keep, f) {
          assert last in xs && keep(last) && y == f(last);
        }
      } else {
        forall x | x in xs
          ensures !(keep(x) && y == f(x))
        {
          if x != last { assert x in init; }
        }
      }
    }
  }

  /** Every entry selected from a prefix is followed by the calls for the next entry. */
  lemma FilterMapStep<T, U>(xs: seq<T>, i: int, keep: T -> bool, f: T -> U)
    requires 0 <= i < |xs|
    ensures FilterMap(xs[..i + 1], keep, f) == FilterMap(xs[..i], keep, f) + (if keep(xs[i]) then [f(xs[i])] else [])
  {
    assert xs[..i + 1][..i] == xs[..i];
  }

  // batch_encode (lib/encoding.py:337-353)

  /** `filename[-3:].lower() in SUPPORTED_MEDIA`. */
  predicate IsBatchMedia(name: string)
  {
    Lower(LastChars(name, 3)) in SupportedMedia
  }

  /** The `encoded` directory inside the media folder. */
  function EncodedDir(folder: string): string
  {
    OsJoin(folder, "encoded")
  }

  /** `<encoded dir>/<name without its last four characters>.mp4`. */
  function EncodedOutput(folder: string, name: string): string
  {
    OsJoin(EncodedDir(folder), SliceTo(name, |name| - 4) + ".mp4")
  }

  /** The `(input, output)` pair handed to `encode_web_mp4` for a listed file. */
  function EncodeJob(folder: string): string -> (string, string)
  {
    name => (OsJoin(folder, name), EncodedOutput(folder, name))
  }

  /** Every output lands in the `encoded` sub-folder with an `.mp4` name. */
  lemma EncodedOutputPlace(folder: string, name: string)
    requires folder != [] && folder[|folder| - 1] != '/'
    requires '/' !in name
    ensures OsSplit(EncodedOutput(folder, name)) == (EncodedDir(folder), SliceTo(name, |name| - 4) + ".mp4")
    ensures EndsWith(EncodedOutput(folder, name), ".mp4")
  {
    var base := SliceTo(name, |name| - 4) + ".mp4";
    assert '/' !in base by {
      assert forall c :: c in SliceTo(name, |name| - 4) ==> c in name;
    }
    SplitOfJoin(EncodedDir(folder), base);
  }

  /** Selecting from a prefix of the listing gives a prefix of the jobs. */
  lemma {:induction false} FilterMapPrefix<T, U>(xs: seq<T>, i: int, keep: T -> bool, f: T -> U)
    requires 0 <= i <= |xs|
    ensures FilterMap(xs[..i], keep, f) <= FilterMap(xs, keep, f)
    decreases |xs| - i
  {
    if i < |xs| {
      FilterMapStep(xs, i, keep, f);
      FilterMapPrefix(xs, i + 1, keep, f);
    } else {
      assert xs[..i] == xs;
    }
  }

  /** Every job in `js` exits with status 0. */
  ghost predicate AllSucceed(js: seq<(string, string)>, succeeds: ((string, string)) -> bool)
  {
    forall j | j in js :: succeeds(j)
  }

  lemma AllSucceedAppend(js: seq<(string, string)>, j: (string, string), succeeds: ((string, string)) -> bool)
    requires AllSucceed(js, succeeds) && succeeds(j)
    ensures AllSucceed(js + [j], succeeds)
  {
    forall x | x in js + [j] ensures succeeds(x) {
      if x != j { assert x in js; }
    }
  }

  /** `batch_encode`: nothing for an empty folder name; otherwise one
      `encode_web_mp4` call per supported entry of the listing, in order.
      `succeeds` tells whether ffmpeg exits with status 0 on a job; the first
      job that fails re-raises its `CalledProcessError` and ends the batch.
      So the jobs run are the supported entries' jobs up to and including the
      first failure, and `completed` holds exactly when none failed. */
  method BatchEncode(folder: string, listing: seq<string>, succeeds: ((string, string)) -> bool)
    returns (jobs: seq<(string, string)>, completed: bool)
    ensures folder == "" ==> jobs == [] && completed
    ensures var all := FilterMap(listing, IsBatchMedia, EncodeJob(folder));
      folder != "" ==> jobs <= all && (jobs == [] || AllSucceed(jobs[..|jobs| - 1], succeeds))
    ensures var all := FilterMap(listing, IsBatchMedia, EncodeJob(folder));
      folder != "" ==> (completed <==> jobs == all && AllSucceed(jobs, succeeds))
    ensures !completed ==> jobs != [] && !succeeds(jobs[|jobs| - 1])
  {
    jobs, completed := [], true;
    if folder == "" {
      return;
    }
    var encodedPath := OsJoin(folder, "encoded");
    var i := 0;
    while i < |listing|
      invariant 0 <= i <= |listing|
      invariant jobs == FilterMap(listing[..i], IsBatchMedia, EncodeJob(folder))
      invariant AllSucceed(jobs, succeeds)
    {
      var filename := listing[i];
      FilterMapStep(listing, i, IsBatchMedia, EncodeJob(folder));
      if IsBatchMedia(filename) {
        var input := OsJoin(folder, filename);
        var output := OsJoin(encodedPath, SliceTo(filename, |filename| - 4) + ".mp4");
        assert EncodeJob(folder)(filename) == (input, output);
        if !succeeds((input, output)) {
          ghost var before := jobs;
          jobs, completed := jobs + [(input, output)], false;
          assert jobs[..|jobs| - 1] == before;
          FilterMapPrefix(listing, i + 1, IsBatchMedia, EncodeJob(folder));
          return;
        }
        AllSucceedAppend(jobs, (input, output), succeeds);
        jobs := jobs + [(input, output)];
      }
      i := i + 1;
    }
    assert listing[..i] == listing;
  }

  // batch_extract_subtitles (lib/encoding.py:356-365)

  /** `file_path.suffix[1:].lower() in SUPPORTED_MEDIA`. */
  predicate HasMediaSuffix(name: string)
  {
    var suffix := Suffix(name);
    (if suffix == [] then [] else Lower(suffix[1..])) in SupportedMedia
  }

  /** `media_path / f"{stem}.{extension}"`. */
  function SubtitleOutput(folder: string, name: string, report: ProbeReport): string
  {
    Child(folder, Stem(name) + "." + ExtensionText(SubtitleFormat(report)))
  }

  /** The `extract_subtitle` command for a listed file and subtitle stream
      `channel`: the output's extension comes from the report `probe` gives
      for the ffprobe command line that selects that same stream. */
  function ExtractJob(ffmpeg: string, folder: string, channel: string, probe: seq<string> -> ProbeReport): string -> seq<string>
  {
    name => ExtractSubtitle(ffmpeg, Child(folder, name),
                            SubtitleOutput(folder, name, probe(SubtitleProbe(Child(folder, name), channel))), channel)
  }

  /** The subtitle file sits next to its video, named after the video's stem
      with the mapped extension (the text `None` when the probe failed). */
  lemma SubtitleOutputPlace(folder: string, name: string, report: ProbeReport)
    requires NormalDir(folder)
    requires '/' !in name && '/' !in ExtensionText(SubtitleFormat(report))
    ensures Parent(SubtitleOutput(folder, name, report)) == folder
    ensures Name(SubtitleOutput(folder, name, report)) == Stem(name) + "." + ExtensionText(SubtitleFormat(report))
  {
    var n := Stem(name) + "." + ExtensionText(SubtitleFormat(report));
    assert '/' !in n by {
      StemSuffix(name);
      assert forall c :: c in Stem(name) ==> c in name;
    }
    ChildParts(folder, n);
  }

  /** `batch_extract_subtitles`: nothing for an empty folder name; otherwise,
      for each entry with a media suffix, a probe of subtitle stream `channel`
      and one `extract_subtitle` call on that stream. */
  method BatchExtractSubtitles(ffmpeg: string, folder: string, listing: seq<string>, channel: string,
                               probe: seq<string> -> ProbeReport)
    returns (jobs: seq<seq<string>>)
    ensures folder == "" ==> jobs == []
    ensures folder != "" ==> jobs == FilterMap(listing, HasMediaSuffix, ExtractJob(ffmpeg, folder, channel, probe))
    ensures forall job | job in jobs :: Passes(job, "-map", "0:s:" + channel)
  {
    jobs := [];
    if folder == "" {
      return;
    }
    var i := 0;
    while i < |listing|
      invariant 0 <= i <= |listing|
      invariant jobs == FilterMap(listing[..i], HasMediaSuffix, ExtractJob(ffmpeg, folder, channel, probe))
      invariant forall job | job in jobs :: Passes(job, "-map", "0:s:" + channel)
    {
      var name := listing[i];
      FilterMapStep(listing, i, HasMediaSuffix, ExtractJob(ffmpeg, folder, channel, probe));
      var filePath := Child(folder, name);
      var suffix := Suffix(name);
      if (if suffix == [] then [] else Lower(suffix[1..])) in SupportedMedia {
        var extension := SubtitleFormat(probe(SubtitleProbe(filePath, channel)));
        var outputPath := Child(folder, Stem(name) + "." + ExtensionText(extension));
        jobs := jobs + [ExtractSubtitle(ffmpeg, filePath, outputPath, channel)];
      }
      i := i + 1;
    }
    assert listing[..i] == listing;
  }
}
