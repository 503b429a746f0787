/** The SubStation Alpha v4.00+ (ASS) subtitle script that app/video.py writes
    for the ffmpeg renderer: timestamps, text escaping, the script itself, and
    the escaping of a path inside an ffmpeg filter argument. */
module SubtitleScript {
  import opened Common
  import opened Text
  import opened Captions

  // ---------------------------------------------------------------------------
  // Timestamps

  /** Python `round(x)`: to the nearest integer, ties to the even one. */
  function RoundHalfEven(x: real): (n: int)
    ensures x >= 0.0 ==> n >= 0
  {
    var f := x.Floor;
    var d := x - f as real;
    if d < 0.5 then f
    else if d > 0.5 then f + 1
    else if f % 2 == 0 then f
    else f + 1
  }

  /** The rounded value is within a half of `x`, and even on a tie. */
  lemma RoundHalfEvenMeaning(x: real)
    ensures Abs(x - RoundHalfEven(x) as real) <= 0.5
    ensures Abs(x - RoundHalfEven(x) as real) == 0.5 ==> RoundHalfEven(x) % 2 == 0
  {
  }

  /** The fields of an `H:MM:SS.CC` timestamp. */
  datatype Clock = Clock(h: nat, m: nat, s: nat, cs: nat)

  /** `_ass_time` before formatting: hours, minutes and seconds of the time
      clamped at 0, and its fraction rounded to centiseconds, capped at 99. */
  function AssClock(t: real): (c: Clock)
    ensures c.m < 100 && c.s < 100 && c.cs < 100
  {
    var u := Max(0.0, t);
    var h := (u / 3600.0).Floor;
    var m := ((u - 3600.0 * (h as real)) / 60.0).Floor;
    var s := (u - 60.0 * ((u / 60.0).Floor as real)).Floor;
    var cs := RoundHalfEven((u - (u.Floor as real)) * 100.0);
    Clock(h, m, s, if cs >= 100 then 99 else cs)
  }

  function FormatClock(c: Clock): string
    requires c.m < 100 && c.s < 100 && c.cs < 100
  {
    NatToString(c.h) + ":" + Pad2(c.m) + ":" + Pad2(c.s) + "." + Pad2(c.cs)
  }

  /** `_ass_time`: `H:MM:SS.CC` with unpadded hours. */
  function AssTime(t: real): string {
    FormatClock(AssClock(t))
  }

  /** The clock names the time clamped at 0: its whole seconds are
      `3600 h + 60 m + s`, and the centiseconds are its fraction rounded
      (half to even) or, when that rounds up to 100, 99. Negative times read
      as `0:00:00.00`. */
  lemma AssClockMeaning(t: real)
    ensures var c := AssClock(t); var u := Max(0.0, t);
      && c.m < 60 && c.s < 60
      && 3600 * c.h + 60 * c.m + c.s == u.Floor
      && var x := (u - (u.Floor as real)) * 100.0;
      && (c.cs < 99 ==> Abs(x - c.cs as real) <= 0.5 && (Abs(x - c.cs as real) == 0.5 ==> c.cs % 2 == 0))
      && (c.cs == 99 ==> x >= 98.5)
      && (t < 0.0 ==> c == Clock(0, 0, 0, 0))
  {
    var u := Max(0.0, t);
    var h := (u / 3600.0).Floor;
    var rem := u - 3600.0 * (h as real);
    assert 0.0 <= rem < 3600.0;
    var m := (rem / 60.0).Floor;
    assert 0 <= m < 60;
    var q := (u / 60.0).Floor;
    assert q == 60 * h + m by {
      assert u / 60.0 == (60 * h) as real + rem / 60.0;
    }
    var s := (u - 60.0 * (q as real)).Floor;
    assert s == u.Floor - 60 * q by {
      assert u - 60.0 * (q as real) == u - ((60 * q) as real);
    }
    RoundHalfEvenMeaning((u - (u.Floor as real)) * 100.0);
  }

  /** Reading a formatted clock back: split on ':' into three fields, the last
      split on '.' into two, each a decimal numeral. */
  function ParseClock(s: string): Option<Clock> {
    var parts := SplitOn(s, ':');
    if |parts| != 3 then None
    else
      var secs := SplitOn(parts[2], '.');
      if |secs| != 2 || !Numeral(parts[0]) || !Numeral(parts[1]) || !Numeral(secs[0]) || !Numeral(secs[1]) then None
      else Some(Clock(ParseNat(parts[0]), ParseNat(parts[1]), ParseNat(secs[0]), ParseNat(secs[1])))
  }

  predicate Numeral(s: string) {
    s != [] && forall i :: 0 <= i < |s| ==> IsDigit(s[i])
  }

  /** Formatting a clock loses nothing: it reads back as the same clock. */
  lemma ParseFormatClock(c: Clock)
    requires c.m < 100 && c.s < 100 && c.cs < 100
    ensures ParseClock(FormatClock(c)) == Some(c)
  {
    var H, M, S, C := NatToString(c.h), Pad2(c.m), Pad2(c.s), Pad2(c.cs);
    ParseNatToString(c.h);
    Pad2Value(c.m);
    Pad2Value(c.s);
    Pad2Value(c.cs);
    SplitClockText(H, M, S, C);
    ClockTextAssoc(H, M, S, C);
  }

  /** Clock text made of four separator-free numerals splits back into them. */
  lemma SplitClockText(H: string, M: string, S: string, C: string)
    requires Numeral(H) && Numeral(M) && Numeral(S) && Numeral(C)
    ensures var last := S + (['.'] + C);
      SplitOn(H + ([':'] + (M + ([':'] + last))), ':') == [H, M, last] && SplitOn(last, '.') == [S, C]
  {
    var last := S + (['.'] + C);
    assert '.' !in S && '.' !in C;
    SplitOnPrefix(S, C, '.');
    SplitOnNoSep(C, '.');
    assert ':' !in H && ':' !in M && ':' !in last;
    SplitOnNoSep(last, ':');
    SplitOnPrefix(M, last, ':');
    SplitOnPrefix(H, M + ([':'] + last), ':');
  }

  lemma ClockTextAssoc(H: string, M: string, S: string, C: string)
    ensures H + ":" + M + ":" + S + "." + C == H + ([':'] + (M + ([':'] + (S + (['.'] + C)))))
  {
    AppendAssoc(S, ".", C);
    AppendAssoc(M + ":", S, "." + C);
    AppendAssoc(M, ":", S + ("." + C));
    AppendAssoc(H + ":" + M, ":", S);
    assert H + ":" + M + ":" + S + "." + C == (H + ":" + M) + (":" + S) + "." + C;
  }

  /** Every timestamp reads back as the clock of its time. */
  lemma AssTimeReadsBack(t: real)
    ensures ParseClock(AssTime(t)) == Some(AssClock(t))
  {
    ParseFormatClock(AssClock(t));
  }

  // ---------------------------------------------------------------------------
  // Text escaping

  /** CRLF, then any remaining CR, become LF. */
  function NormalizeNewlines(s: string): string {
    Replace(Replace(s, "\r\n", "\n"), "\r", "\n")
  }

  /** `_ass_escape_text`: `None` reads as the empty text; newlines are
      normalised; backslashes are doubled, braces escaped, and LF becomes the
      ASS line break `\N`. */
  function AssEscapeText(s: Option<string>): string {
    var t := NormalizeNewlines(if s.Some? then s.value else []);
    var t1 := Replace(t, "\\", "\\\\");
    var t2 := Replace(Replace(t1, "{", "\\{"), "}", "\\}");
    Replace(t2, "\n", "\\N")
  }

  /** The escape of one character. */
  function EscapeChar(c: char): string {
    if c == '\\' then "\\\\"
    else if c == '{' then "\\{"
    else if c == '}' then "\\}"
    else if c == '\n' then "\\N"
    else [c]
  }

  function EscapeChars(s: string): string {
    if s == [] then [] else EscapeChar(s[0]) + EscapeChars(s[1..])
  }

  /** Reading an escaped text back: `\\`, `\{`, `\}` and `\N` stand for one
      character each. */
  function UnescapeAss(s: string): string
    decreases |s|
  {
    if s == [] then []
    else if s[0] == '\\' && |s| >= 2 && s[1] in "\\{}N" then
      [if s[1] == 'N' then '\n' else s[1]] + UnescapeAss(s[2..])
    else [s[0]] + UnescapeAss(s[1..])
  }

  /** The chain of replacements escapes character by character: the earlier
      doubling of backslashes never touches the backslashes the later steps
      add. */
  lemma AssEscapeIsCharwise(s: Option<string>)
    ensures AssEscapeText(s) == EscapeChars(NormalizeNewlines(if s.Some? then s.value else []))
  {
    EscapeChainCharwise(NormalizeNewlines(if s.Some? then s.value else []));
  }

  lemma {:induction false} EscapeChainCharwise(t: string)
    ensures Replace(Replace(Replace(Replace(t, "\\", "\\\\"), "{", "\\{"), "}", "\\}"), "\n", "\\N") == EscapeChars(t)
    decreases |t|
  {
    if t != [] {
      var c, rest := t[0], t[1..];
      assert t == [c] + rest;
      ReplaceCharAppend([c], rest, '\\', "\\\\");
      ReplaceOne(c, '\\', "\\\\");
      var a := Replace([c], "\\", "\\\\");
      var b := Replace(rest, "\\", "\\\\");
      ReplaceCharAppend(a, b, '{', "\\{");
      var a2 := Replace(a, "{", "\\{");
      var b2 := Replace(b, "{", "\\{");
      ReplaceCharAppend(a2, b2, '}', "\\}");
      var a3 := Replace(a2, "}", "\\}");
      var b3 := Replace(b2, "}", "\\}");
      ReplaceCharAppend(a3, b3, '\n', "\\N");
      if c == '\\' {
        ReplaceAbsent("\\\\", '{', "\\{");
        ReplaceAbsent("\\\\", '}', "\\}");
        ReplaceAbsent("\\\\", '\n', "\\N");
      } else if c == '{' {
        ReplaceOne(c, '{', "\\{");
        ReplaceAbsent("\\{", '}', "\\}");
        ReplaceAbsent("\\{", '\n', "\\N");
      } else if c == '}' {
        ReplaceOne(c, '{', "\\{");
        ReplaceOne(c, '}', "\\}");
        ReplaceAbsent("\\}", '\n', "\\N");
      } else {
        ReplaceOne(c, '{', "\\{");
        ReplaceOne(c, '}', "\\}");
        ReplaceOne(c, '\n', "\\N");
      }
      EscapeChainCharwise(rest);
    }
  }

  /** Unescaping recovers the newline-normalised text. */
  lemma {:induction false} UnescapeEscapeChars(t: string)
    ensures UnescapeAss(EscapeChars(t)) == t
    decreases |t|
  {
    if t != [] {
      var e := EscapeChars(t);
      var rest := EscapeChars(t[1..]);
      assert e == EscapeChar(t[0]) + rest;
      UnescapeEscapeChars(t[1..]);
      if |EscapeChar(t[0])| == 2 {
        assert e[2..] == rest;
      } else {
        assert e[1..] == rest;
      }
      assert [t[0]] + t[1..] == t;
    }
  }

  /** An escaped text holds no raw line break of either kind, is empty only
      when the text was, and reads back as the text with normalised newlines. */
  lemma AssEscapeProperties(s: Option<string>)
    ensures var r := AssEscapeText(s); var t := NormalizeNewlines(if s.Some? then s.value else []);
      && '\n' !in r && '\r' !in r
      && (r == [] <==> t == [])
      && UnescapeAss(r) == t
  {
    var t := NormalizeNewlines(if s.Some? then s.value else []);
    AssEscapeIsCharwise(s);
    ReplaceRemoves(Replace(if s.Some? then s.value else [], "\r\n", "\n"), '\r', "\n");
    EscapeCharsClean(t);
    UnescapeEscapeChars(t);
  }

  lemma {:induction false} EscapeCharsClean(t: string)
    requires '\r' !in t
    ensures '\n' !in EscapeChars(t) && '\r' !in EscapeChars(t)
    ensures EscapeChars(t) == [] <==> t == []
    decreases |t|
  {
    if t != [] {
      EscapeCharsClean(t[1..]);
      assert t[0] in t;
    }
  }

  // ---------------------------------------------------------------------------
  // The script

  /** A span in the form the script writer reads: start, end and text. */
  datatype Cue = Cue(start: real, end: real, text: string)

  function CaptionCues(spans: seq<CaptionSpan>): (cues: seq<Cue>)
    ensures |cues| == |spans|
  {
    seq(|spans|, i requires 0 <= i < |spans| => Cue(spans[i].start, spans[i].end, spans[i].text))
  }

  function KaraokeCues(spans: seq<WordSpan>): (cues: seq<Cue>)
    ensures |cues| == |spans|
  {
    seq(|spans|, i requires 0 <= i < |spans| => Cue(spans[i].start, spans[i].end, spans[i].text))
  }

  /** Font sizes: 3.5% (captions) and 4% (karaoke) of the frame height, at
      least 28. */
  function CaptionFontSize(height: int): (n: int)
    ensures n >= 28 && n >= Trunc(height as real * 0.035)
    ensures n == 28 || n == Trunc(height as real * 0.035)
  {
    if Trunc(height as real * 0.035) >= 28 then Trunc(height as real * 0.035) else 28
  }

  function KaraokeFontSize(height: int): (n: int)
    ensures n >= 28 && n >= Trunc(height as real * 0.040)
    ensures n == 28 || n == Trunc(height as real * 0.040)
  {
    if Trunc(height as real * 0.040) >= 28 then Trunc(height as real * 0.040) else 28
  }

  function StyleLine(name: string, fontSize: int): string {
    "Style: " + name + ",Arial," + IntToString(fontSize)
      + StyleFields
  }

  const StylesFormat := "Format: Name, Fontname, Fontsize, PrimaryColour, SecondaryColour, OutlineColour, BackColour, Bold, Italic, Underline, StrikeOut, ScaleX, ScaleY, Spacing, Angle, BorderStyle, Outline, Shadow, Alignment, MarginL, MarginR, MarginV, Encoding"
  const EventsFormat := "Format: Layer, Start, End, Style, Name, MarginL, MarginR, MarginV, Effect, Text"
  /** The style fields after the font size, shared by both styles. */
  const StyleFields := ",&H00FFFFFF,&H000000FF,&H00000000,&H64000000,-1,0,0,0,100,100,0,0,1,4,0,5,10,10,10,1"

  /** The script's header, line by line: resolution, the two styles, and the
      event format. */
  function HeaderLines(width: int, height: int): seq<string> {
    [ "[Script Info]",
      "ScriptType: v4.00+",
      "PlayResX: " + IntToString(width),
      "PlayResY: " + IntToString(height),
      "ScaledBorderAndShadow: yes",
      "",
      "[V4+ Styles]",
      StylesFormat,
      StyleLine("Default", CaptionFontSize(height)),
      StyleLine("Karaoke", KaraokeFontSize(height)),
      "",
      "[Events]",
      EventsFormat ]
  }

  /** The override tag that centres a line at `(x, y)` with the given size. */
  function PositionTag(x: int, y: int, fontSize: int): string {
    "{\\an5\\pos(" + IntToString(x) + "," + IntToString(y) + ")\\fs" + IntToString(fontSize) + "\\bord4\\shad0}"
  }

  function DialogueLine(c: Cue, style: string, tag: string, txt: string): string {
    "Dialogue: 0," + AssTime(c.start) + "," + AssTime(c.end) + "," + style + ",,0,0,0,," + tag + txt
  }

  /** The escaped, stripped text a cue shows. */
  function CueText(c: Cue): string {
    AssEscapeText(Some(Strip(c.text)))
  }

  /** The Dialogue lines for a list of cues, cue by cue; a cue whose text is
      empty after stripping and escaping has none. */
  function Dialogues(cues: seq<Cue>, style: string, tag: string): seq<string> {
    if cues == [] then []
    else
      var c := cues[|cues| - 1];
      Dialogues(cues[..|cues| - 1], style, tag)
        + (if CueText(c) == [] then [] else [DialogueLine(c, style, tag, CueText(c))])
  }

  /** The script's lines after the header: karaoke cues when there are any,
      else caption cues. */
  function EventLines(captions: seq<Cue>, karaoke: seq<Cue>, width: int, height: int): seq<string> {
    if karaoke != [] then
      Dialogues(karaoke, "Karaoke",
                PositionTag(Trunc(width as real * 0.5), Trunc(height as real * 0.5), KaraokeFontSize(height)))
    else
      Dialogues(captions, "Default",
                PositionTag(Trunc(width as real * 0.5), Trunc(height as real * 0.78), CaptionFontSize(height)))
  }

  /** The text of the script `_write_ass_subtitles` writes, or `None` when it
      writes nothing. */
  function AssScript(captions: Option<seq<CaptionSpan>>, karaoke: Option<seq<WordSpan>>, width: int, height: int): Option<string> {
    var cs := if captions.Some? then CaptionCues(captions.value) else [];
    var ks := if karaoke.Some? then KaraokeCues(karaoke.value) else [];
    if cs == [] && ks == [] then None
    else Some(Join("\n", [Join("\n", HeaderLines(width, height))] + EventLines(cs, ks, width, height)) + "\n")
  }

  /** Whether `_write_ass_subtitles` writes a script: some span list is
      non-empty. */
  predicate WritesScript(captions: Option<seq<CaptionSpan>>, karaoke: Option<seq<WordSpan>>) {
    (captions.Some? && captions.value != []) || (karaoke.Some? && karaoke.value != [])
  }

  lemma AssScriptWritten(captions: Option<seq<CaptionSpan>>, karaoke: Option<seq<WordSpan>>, width: int, height: int)
    ensures AssScript(captions, karaoke, width, height).Some? <==> WritesScript(captions, karaoke)
  {
    if captions.Some? {
      assert |CaptionCues(captions.value)| == |captions.value|;
    }
    if karaoke.Some? {
      assert |KaraokeCues(karaoke.value)| == |karaoke.value|;
    }
  }

  /** `_write_ass_subtitles`: the returned text is what is written to the
      script file (`None`: nothing is written and the call answers False). */
  method WriteAssSubtitles(captions: Option<seq<CaptionSpan>>, karaoke: Option<seq<WordSpan>>, width: int, height: int)
    returns (script: Option<string>)
    ensures script == AssScript(captions, karaoke, width, height)
  {
    var captionCues := if captions.Some? then CaptionCues(captions.value) else [];
    var karaokeCues := if karaoke.Some? then KaraokeCues(karaoke.value) else [];
    if captionCues == [] && karaokeCues == [] {
      return None;
    }

    var header := Join("\n", HeaderLines(width, height));
    var lines := AppendEvents([header], captionCues, karaokeCues, width, height);
    script := Some(Join("\n", lines) + "\n");
  }

  /** The event part of `_write_ass_subtitles`: the karaoke cues, centred,
      when there are any, else the caption cues in the lower part. */
  method AppendEvents(lines0: seq<string>, captionCues: seq<Cue>, karaokeCues: seq<Cue>, width: int, height: int)
    returns (lines: seq<string>)
    ensures lines == lines0 + EventLines(captionCues, karaokeCues, width, height)
  {
    var captionX := Trunc(width as real * 0.5);
    var captionY := Trunc(height as real * 0.78);
    var centerX := Trunc(width as real * 0.5);
    var centerY := Trunc(height as real * 0.5);
    var fontSizeCaption := CaptionFontSize(height);
    var fontSizeKaraoke := KaraokeFontSize(height);
    if karaokeCues != [] {
      var tag := PositionTag(centerX, centerY, fontSizeKaraoke);
      lines := AppendDialogues(lines0, karaokeCues, "Karaoke", tag);
    } else {
      var tag := PositionTag(captionX, captionY, fontSizeCaption);
      lines := AppendDialogues(lines0, captionCues, "Default", tag);
    }
  }

  /** The per-span loop of `_write_ass_subtitles`. */
  method AppendDialogues(lines0: seq<string>, cues: seq<Cue>, style: string, tag: string) returns (lines: seq<string>)
    ensures lines == lines0 + Dialogues(cues, style, tag)
  {
    lines := lines0;
    for k := 0 to |cues|
      invariant lines == lines0 + Dialogues(cues[..k], style, tag)
    {
      DialoguesStep(cues, k, style, tag);
      var txt := CueText(cues[k]);
      if txt != [] {
        AppendAssoc(lines0, Dialogues(cues[..k], style, tag), [DialogueLine(cues[k], style, tag, txt)]);
        lines := lines + [DialogueLine(cues[k], style, tag, txt)];
      }
    }
    assert cues[..|cues|] == cues;
  }

  lemma DialoguesStep(cues: seq<Cue>, k: nat, style: string, tag: string)
    requires k < |cues|
    ensures Dialogues(cues[..k + 1], style, tag) == Dialogues(cues[..k], style, tag)
      + (if CueText(cues[k]) == [] then [] else [DialogueLine(cues[k], style, tag, CueText(cues[k]))])
  {
    assert cues[..k + 1][..k] == cues[..k];
  }

  /** The cues that produce a line, in order. */
  function Shown(cues: seq<Cue>): seq<Cue> {
    if cues == [] then []
    else
      var c := cues[|cues| - 1];
      Shown(cues[..|cues| - 1]) + (if Strip(c.text) == [] then [] else [c])
  }

  /** Exactly one Dialogue line per cue whose stripped text is non-empty, in
      input order, carrying that cue's times and escaped text. */
  lemma {:induction false} DialoguesOfShown(cues: seq<Cue>, style: string, tag: string)
    ensures var d := Dialogues(cues, style, tag); var s := Shown(cues);
      && |d| == |s|
      && forall i :: 0 <= i < |d| ==> d[i] == DialogueLine(s[i], style, tag, CueText(s[i]))
    decreases |cues|
  {
    if cues != [] {
      var c := cues[|cues| - 1];
      var front := cues[..|cues| - 1];
      DialoguesOfShown(front, style, tag);
      CueTextEmpty(c);
      if Strip(c.text) == [] {
        assert Dialogues(cues, style, tag) == Dialogues(front, style, tag);
        assert Shown(cues) == Shown(front);
      } else {
        assert Dialogues(cues, style, tag) == Dialogues(front, style, tag) + [DialogueLine(c, style, tag, CueText(c))];
        assert Shown(cues) == Shown(front) + [c];
        DialoguesOfShownStep(Dialogues(front, style, tag), Shown(front), c, style, tag);
      }
    }
  }

  lemma DialoguesOfShownStep(d: seq<string>, s: seq<Cue>, c: Cue, style: string, tag: string)
    requires |d| == |s| && forall i :: 0 <= i < |d| ==> d[i] == DialogueLine(s[i], style, tag, CueText(s[i]))
    ensures var d' := d + [DialogueLine(c, style, tag, CueText(c))]; var s' := s + [c];
      |d'| == |s'| && forall i :: 0 <= i < |d'| ==> d'[i] == DialogueLine(s'[i], style, tag, CueText(s'[i]))
  {
  }

  /** A cue shows nothing exactly when its stripped text is empty. */
  lemma CueTextEmpty(c: Cue)
    ensures CueText(c) == [] <==> Strip(c.text) == []
  {
    AssEscapeProperties(Some(Strip(c.text)));
    StripIdempotentEmpty(c.text);
  }

  /** Normalising newlines of a stripped text cannot empty it. */
  lemma StripIdempotentEmpty(s: string)
    ensures NormalizeNewlines(Strip(s)) == [] <==> Strip(s) == []
  {
    var t := Strip(s);
    if t != [] {
      assert t[..1] != "\r\n" && t[..1] == [t[0]];
      NormalizeKeepsNonEmpty(t);
    }
  }

  lemma NormalizeKeepsNonEmpty(t: string)
    requires t != []
    ensures NormalizeNewlines(t) != []
  {
    var a := Replace(t, "\r\n", "\n");
    assert a != [];
    assert Replace(a, "\r", "\n") != [];
  }

  /** Karaoke cues, when present, decide the script alone: the caption cues
      are ignored; with neither kind there is no script. */
  lemma KaraokeTakesPrecedence(c1: Option<seq<CaptionSpan>>, c2: Option<seq<CaptionSpan>>, k: seq<WordSpan>, width: int, height: int)
    requires k != []
    ensures AssScript(c1, Some(k), width, height) == AssScript(c2, Some(k), width, height)
    ensures AssScript(None, None, width, height).None?
    ensures AssScript(Some([]), Some([]), width, height).None?
  {
    var ks := KaraokeCues(k);
    assert ks != [];
    var cs1 := if c1.Some? then CaptionCues(c1.value) else [];
    var cs2 := if c2.Some? then CaptionCues(c2.value) else [];
    assert EventLines(cs1, ks, width, height) == EventLines(cs2, ks, width, height);
    AssScriptWritten(None, None, width, height);
    AssScriptWritten(Some([]), Some([]), width, height);
  }

  // ---------------------------------------------------------------------------
  // Paths inside filter arguments

  /** `_ffmpeg_filter_escape_path`: backslashes become slashes, then `:` and `'`
      are backslash-escaped. */
  function FilterEscapePath(p: string): string {
    Replace(Replace(Replace(p, "\\", "/"), ":", "\\:"), "'", "\\'")
  }

  function FilterEscapeChar(c: char): string {
    if c == '\\' then "/" else if c == ':' then "\\:" else if c == '\'' then "\\'" else [c]
  }

  function FilterEscapeChars(p: string): string {
    if p == [] then [] else FilterEscapeChar(p[0]) + FilterEscapeChars(p[1..])
  }

  /** How the filter parser reads an escaped path back: `\x` stands for `x`. */
  function FilterUnescape(s: string): string
    decreases |s|
  {
    if s == [] then []
    else if s[0] == '\\' && |s| >= 2 then [s[1]] + FilterUnescape(s[2..])
    else [s[0]] + FilterUnescape(s[1..])
  }

  lemma {:induction false} FilterEscapeCharwise(p: string)
    ensures FilterEscapePath(p) == FilterEscapeChars(p)
    decreases |p|
  {
    if p != [] {
      var c, rest := p[0], p[1..];
      assert p == [c] + rest;
      ReplaceCharAppend([c], rest, '\\', "/");
      ReplaceOne(c, '\\', "/");
      var a := Replace([c], "\\", "/");
      var b := Replace(rest, "\\", "/");
      ReplaceCharAppend(a, b, ':', "\\:");
      var a2 := Replace(a, ":", "\\:");
      var b2 := Replace(b, ":", "\\:");
      ReplaceCharAppend(a2, b2, '\'', "\\'");
      if c == '\\' {
        ReplaceAbsent("/", ':', "\\:");
        ReplaceAbsent("/", '\'', "\\'");
      } else if c == ':' {
        ReplaceOne(c, ':', "\\:");
        ReplaceAbsent("\\:", '\'', "\\'");
      } else {
        ReplaceOne(c, ':', "\\:");
        ReplaceOne(c, '\'', "\\'");
      }
      FilterEscapeCharwise(rest);
    }
  }

  /** An escaped path holds no backslash except as an escape, and reads back
      as the path with its backslashes turned into slashes. */
  lemma {:induction false} FilterUnescapeEscape(p: string)
    ensures FilterUnescape(FilterEscapePath(p)) == Replace(p, "\\", "/")
    decreases |p|
  {
    FilterEscapeCharwise(p);
    if p != [] {
      var e := FilterEscapeChars(p);
      var rest := FilterEscapeChars(p[1..]);
      assert e == FilterEscapeChar(p[0]) + rest;
      FilterUnescapeEscape(p[1..]);
      FilterEscapeCharwise(p[1..]);
      if |FilterEscapeChar(p[0])| == 2 {
        assert e[2..] == rest;
      } else {
        assert e[1..] == rest;
      }
      assert p == [p[0]] + p[1..];
      ReplaceCharAppend([p[0]], p[1..], '\\', "/");
      ReplaceOne(p[0], '\\', "/");
    }
  }
}
