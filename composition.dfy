/** The numeric and bookkeeping policies of video composition (app/video.py):
    the ffmpeg render plan (duration, start offsets, input streams and filter
    stages), the encoder's outcome and the clean-up of the subtitle script,
    the subclip chooser, the 9:16 crop and split-screen geometry, the frame
    snapping of the moviepy path, and the choice of renderer. Probes, random
    draws and encoder runs are inputs. */
module Composition {
  import opened Common
  import opened Text
  import opened Captions
  import opened SubtitleScript

  // ---------------------------------------------------------------------------
  // Random draws

  /** Python `random.uniform(lo, hi)` for the fraction `draw` returned by
      `random.random()`. */
  function Uniform(lo: real, hi: real, draw: real): real {
    lo + Scale(hi - lo, draw)
  }

  function Scale(x: real, f: real): real { x * f }

  /** A draw in [0, 1] lands in [lo, hi]. */
  lemma UniformBounds(lo: real, hi: real, draw: real)
    requires lo <= hi && 0.0 <= draw <= 1.0
    ensures lo <= Uniform(lo, hi, draw) <= hi
  {
    MulNonNegative(hi - lo, draw);
    MulMonotone(hi - lo, draw, 1.0);
  }

  lemma MulNonNegative(a: real, b: real)
    requires a >= 0.0 && b >= 0.0
    ensures a * b >= 0.0
  {
  }

  lemma MulMonotone(a: real, b: real, c: real)
    requires a >= 0.0 && b <= c
    ensures a * b <= a * c
  {
    MulNonNegative(a, c - b);
    assert a * (c - b) == a * c - a * b;
  }

  lemma MulStrict(a: real, b: real, c: real)
    requires a > 0.0 && b < c
    ensures a * b < a * c
  {
    assert a * (c - b) > 0.0;
    assert a * (c - b) == a * c - a * b;
  }

  lemma MulStrictRight(b: real, c: real, f: real)
    requires f > 0.0 && b < c
    ensures b * f < c * f
  {
    assert (c - b) * f > 0.0;
    assert (c - b) * f == c * f - b * f;
  }

  lemma MulMonotoneRight(b: real, c: real, f: real)
    requires f >= 0.0 && b <= c
    ensures b * f <= c * f
  {
    assert (c - b) * f >= 0.0;
    assert (c - b) * f == c * f - b * f;
  }

  lemma DivTimes(x: real, y: real)
    requires y != 0.0
    ensures y * (x / y) == x
  {
  }

  // ---------------------------------------------------------------------------
  // The ffmpeg render plan

  const ProbeFailed := "Failed to probe TTS audio duration (ffprobe missing?)"

  /** A media input of the ffmpeg command; looped inputs repeat forever. */
  datatype Source = MainVideo | SecondVideo | Narration | Music
  datatype Input = Input(source: Source, looped: bool)

  /** Filter-graph pad labels. */
  datatype Label = V1 | V2 | Top | Bottom | VBase | VPad | VOut

  /** The video filter chains, each writing the pad `out`:
      `Prepare` trims input `input` to `[start, start + duration)`, resets its
      timestamps and scales and crops it to the output frame at the output
      frame rate; `CropLower` keeps the lower three quarters and scales to
      `width` x `height`; `Stack` stacks two pads vertically; `PadTail`
      freezes the last frame for `seconds`; `BurnSubtitles` draws the subtitle
      script; `PassThrough` is the `null` filter. */
  datatype VideoStage =
    | Prepare(input: nat, start: real, duration: real, out: Label)
    | CropLower(from: Label, width: int, height: int, out: Label)
    | Stack(top: Label, bottom: Label, out: Label)
    | PadTail(from: Label, seconds: real, out: Label)
    | BurnSubtitles(from: Label, out: Label)
    | PassThrough(from: Label, out: Label)

  /** The audio filter chains: the narration padded with `pad` seconds of
      silence and trimmed to `duration`; the music trimmed and scaled by
      `volume`; the mix of the two; or the narration passed through. */
  datatype AudioStage =
    | PadNarration(input: nat, pad: real, duration: real)
    | TrimMusic(input: nat, duration: real, volume: real)
    | Mix
    | PassAudio

  /** The ffmpeg path's inputs: the probed narration duration (`None`: the
      probe failed), the probed video durations, the random draws, whether
      a second video and a music file are present, and the subtitle spans. */
  datatype FfmpegRequest = FfmpegRequest(
    ttsDuration: Option<real>,
    tailPadding: real,
    chosenStart: Option<real>,
    video1Duration: Option<real>, draw1: real,
    splitScreen: bool, hasVideo2: bool,
    video2Duration: Option<real>, draw2: real,
    addMusic: bool, musicChosen: bool, musicExists: bool, musicVolume: real,
    captions: seq<CaptionSpan>, karaoke: Option<seq<WordSpan>>,
    outWidth: int, outHeight: int)

  datatype FfmpegPlan = FfmpegPlan(
    duration: real, start1: real, start2: real,
    inputs: seq<Input>, ttsIndex: nat, musicIndex: Option<nat>,
    video: seq<VideoStage>, audio: seq<AudioStage>, hasSubs: bool)

  /** Where a background video starts: an explicit start clamped at 0, else a
      random point at least a second before the probed end (0 when the probe
      failed or the video is at most a second long). */
  function StartOffset(chosen: Option<real>, probed: Option<real>, draw: real): real {
    if chosen.Some? then Max(0.0, chosen.value)
    else if probed.Some? && probed.value > 1.0 then Uniform(0.0, Max(0.0, probed.value - 1.0), draw)
    else 0.0
  }

  lemma StartOffsetBounds(chosen: Option<real>, probed: Option<real>, draw: real)
    requires 0.0 <= draw <= 1.0
    ensures StartOffset(chosen, probed, draw) >= 0.0
    ensures chosen.Some? ==> StartOffset(chosen, probed, draw) == Max(0.0, chosen.value)
    ensures chosen.None? && probed.Some? ==> StartOffset(chosen, probed, draw) <= Max(0.0, probed.value - 1.0)
    ensures chosen.None? && (probed.None? || probed.value <= 1.0) ==> StartOffset(chosen, probed, draw) == 0.0
  {
    if chosen.None? && probed.Some? && probed.value > 1.0 {
      UniformBounds(0.0, Max(0.0, probed.value - 1.0), draw);
    }
  }

  function Consumes(s: VideoStage): set<Label> {
    match s
    case Prepare(_, _, _, _) => {}
    case CropLower(f, _, _, _) => {f}
    case Stack(t, b, _) => {t, b}
    case PadTail(f, _, _) => {f}
    case BurnSubtitles(f, _) => {f}
    case PassThrough(f, _) => {f}
  }

  function ProducedBy(v: seq<VideoStage>): set<Label> {
    if v == [] then {} else ProducedBy(v[..|v| - 1]) + {v[|v| - 1].out}
  }

  /** Every stage reads only pads that earlier stages wrote (stated stage by
      stage from the end; `ConnectedMeaning` gives the indexed form). */
  predicate Connected(v: seq<VideoStage>) {
    v == [] || (Connected(v[..|v| - 1]) && Consumes(v[|v| - 1]) <= ProducedBy(v[..|v| - 1]))
  }

  /** Stage `i` reads only pads that the stages before it wrote. */
  predicate StageReady(v: seq<VideoStage>, i: nat)
    requires i < |v|
  {
    Consumes(v[i]) <= ProducedBy(v[..i])
  }

  lemma {:induction false} ConnectedMeaning(v: seq<VideoStage>)
    ensures Connected(v) <==> forall i :: 0 <= i < |v| ==> StageReady(v, i)
    decreases |v|
  {
    if v != [] {
      var u := v[..|v| - 1];
      ConnectedMeaning(u);
      forall i | 0 <= i < |u|
        ensures StageReady(u, i) == StageReady(v, i)
      {
        assert u[..i] == v[..i];
      }
      assert StageReady(v, |u|) == (Consumes(v[|u|]) <= ProducedBy(u));
    }
  }

  /** The stream indices agree with the input list: the main video is input 0,
      any second video input 1, the narration follows the videos, and the
      music, when present, comes last; the video chains read video inputs and
      the audio chains read the narration and the music. */
  predicate IndicesConsistent(p: FfmpegPlan) {
    && 1 <= p.ttsIndex < |p.inputs|
    && |p.inputs| == p.ttsIndex + 1 + (if p.musicIndex.Some? then 1 else 0)
    && p.inputs[0] == Input(MainVideo, true)
    && (forall i :: 0 < i < p.ttsIndex ==> p.inputs[i] == Input(SecondVideo, true))
    && p.inputs[p.ttsIndex] == Input(Narration, false)
    && (p.musicIndex.Some? ==> p.musicIndex.value == p.ttsIndex + 1 && p.inputs[p.musicIndex.value] == Input(Music, true))
    && (forall i :: 0 <= i < |p.video| && p.video[i].Prepare? ==> p.video[i].input < p.ttsIndex)
    && |p.audio| >= 2
    && p.audio[0].PadNarration? && p.audio[0].input == p.ttsIndex
    && (forall i :: 0 <= i < |p.audio| && p.audio[i].TrimMusic? ==> p.musicIndex == Some(p.audio[i].input))
  }

  /** Whether `_write_ass_subtitles` writes a script for the request's spans
      (by `AssScriptWritten`, exactly when `AssScript` is not `None`). */
  predicate HasSubtitles(q: FfmpegRequest) {
    WritesScript(Some(q.captions), q.karaoke)
  }

  /** The set-up part of `_compose_video_with_tts_ffmpeg`. A failed narration
      probe is an error; otherwise the duration is the narration plus any tail
      padding, at least 0.01 s; the start offsets follow `StartOffset`; the
      streams are numbered consistently; the filter graph is connected and
      ends in `[vout]`; a tail pad is added exactly when the padding is
      positive; subtitles are burned in exactly when a script was written; and
      the music is mixed in exactly when it was chosen and exists. */
  method PlanFfmpegRender(q: FfmpegRequest) returns (r: Result<FfmpegPlan>)
    ensures r.Err? <==> q.ttsDuration.None?
    ensures r.Err? ==> r.error == RuntimeError(ProbeFailed)
    ensures r.Ok? ==> r.value.duration == Max(0.01, q.ttsDuration.value + Max(0.0, q.tailPadding))
    ensures r.Ok? ==> r.value.start1 == StartOffset(q.chosenStart, q.video1Duration, q.draw1)
    ensures r.Ok? ==> r.value.start2 == (if q.splitScreen && q.hasVideo2 then StartOffset(None, q.video2Duration, q.draw2) else 0.0)
    ensures r.Ok? ==> IndicesConsistent(r.value)
    ensures r.Ok? ==> r.value.ttsIndex == (if q.splitScreen && q.hasVideo2 then 2 else 1)
    ensures r.Ok? ==> (r.value.musicIndex.Some? <==> q.addMusic && q.musicChosen && q.musicExists)
    ensures r.Ok? && !(q.splitScreen && q.hasVideo2) && !(q.addMusic && q.musicChosen && q.musicExists) ==>
      r.value.inputs == [Input(MainVideo, true), Input(Narration, false)]
    ensures r.Ok? ==> GraphEndsInOutput(r.value.video)
    ensures r.Ok? ==> (HasTailPad(r.value.video) <==> q.tailPadding > 0.0)
    ensures r.Ok? ==> r.value.hasSubs == HasSubtitles(q)
    ensures r.Ok? ==> (r.value.video[|r.value.video| - 1].BurnSubtitles? <==> r.value.hasSubs)
    ensures r.Ok? ==> (r.value.musicIndex.Some? <==> Mix in r.value.audio)
  {
    if q.ttsDuration.None? {
      return Err(RuntimeError(ProbeFailed));
    }
    var duration := q.ttsDuration.value + Max(0.0, q.tailPadding);
    duration := Max(0.01, duration);

    var start1: real;
    if q.chosenStart.Some? {
      start1 := Max(0.0, q.chosenStart.value);
    } else if q.video1Duration.Some? && q.video1Duration.value > 1.0 {
      start1 := Uniform(0.0, Max(0.0, q.video1Duration.value - 1.0), q.draw1);
    } else {
      start1 := 0.0;
    }

    var split := q.splitScreen && q.hasVideo2;
    var start2 := 0.0;
    if split {
      if q.video2Duration.Some? && q.video2Duration.value > 1.0 {
        start2 := Uniform(0.0, Max(0.0, q.video2Duration.value - 1.0), q.draw2);
      }
    }

    var hasSubs := HasSubtitles(q);
    var inputs, ttsIndex, musicIndex := PlanInputs(split, q.addMusic && q.musicChosen && q.musicExists);
    assert !split && musicIndex.None? ==> inputs == [Input(MainVideo, true), Input(Narration, false)];
    var video := PlanVideoChains(split, start1, start2, duration, q.outWidth, q.outHeight, q.tailPadding, hasSubs);
    var audio := PlanAudioChains(ttsIndex, musicIndex, Max(0.0, q.tailPadding), duration, q.musicVolume);
    r := Ok(FfmpegPlan(duration, start1, start2, inputs, ttsIndex, musicIndex, video, audio, hasSubs));
  }

  /** The `-i` arguments: the main video looped, the second video looped when
      the split screen has one, the narration, and the music looped when it is
      mixed in. */
  method PlanInputs(split: bool, music: bool) returns (inputs: seq<Input>, ttsIndex: nat, musicIndex: Option<nat>)
    ensures ttsIndex == (if split then 2 else 1)
    ensures musicIndex == (if music then Some(ttsIndex + 1) else None)
    ensures |inputs| == ttsIndex + 1 + (if music then 1 else 0)
    ensures inputs[0] == Input(MainVideo, true)
    ensures forall i :: 0 < i < ttsIndex ==> inputs[i] == Input(SecondVideo, true)
    ensures inputs[ttsIndex] == Input(Narration, false)
    ensures music ==> inputs[ttsIndex + 1] == Input(Music, true)
  {
    inputs := [Input(MainVideo, true)];
    var video2Index: Option<nat> := None;
    if split {
      video2Index := Some(1);
      inputs := inputs + [Input(SecondVideo, true)];
    }
    ttsIndex := if video2Index.None? then 1 else 2;
    inputs := inputs + [Input(Narration, false)];
    musicIndex := None;
    if music {
      musicIndex := Some(ttsIndex + 1);
      inputs := inputs + [Input(Music, true)];
    }
  }

  predicate GraphEndsInOutput(v: seq<VideoStage>) {
    |v| > 0 && Connected(v) && v[|v| - 1].out == VOut
  }

  /** Some stage of the chain is a `tpad`. */
  predicate HasTailPad(v: seq<VideoStage>) {
    v != [] && (HasTailPad(v[..|v| - 1]) || v[|v| - 1].PadTail?)
  }

  lemma {:induction false} HasTailPadMeaning(v: seq<VideoStage>)
    ensures HasTailPad(v) <==> exists i :: 0 <= i < |v| && v[i].PadTail?
    decreases |v|
  {
    if v != [] {
      var u := v[..|v| - 1];
      HasTailPadMeaning(u);
      assert forall i :: 0 <= i < |u| ==> u[i] == v[i];
      if HasTailPad(u) {
        var i :| 0 <= i < |u| && u[i].PadTail?;
        assert v[i].PadTail?;
      }
    }
  }

  /** The `-filter_complex` video chains: for a split screen both videos are
      prepared, cropped to their lower three quarters at half the output
      height and stacked; otherwise the one video is prepared; then an
      optional tail pad, then subtitles or the `null` filter into `[vout]`. */
  method PlanVideoChains(split: bool, start1: real, start2: real, duration: real, outWidth: int, outHeight: int,
                         tailPadding: real, hasSubs: bool)
    returns (video: seq<VideoStage>)
    ensures GraphEndsInOutput(video)
    ensures HasTailPad(video) <==> tailPadding > 0.0
    ensures video[|video| - 1].BurnSubtitles? <==> hasSubs
    ensures forall i :: 0 <= i < |video| && video[i].Prepare? ==> video[i].input < (if split then 2 else 1)
    ensures video[0] == Prepare(0, start1, duration, if split then V1 else VBase)
    ensures split ==> video[1] == Prepare(1, start2, duration, V2)
  {
    video := PlanBaseChain(split, start1, start2, duration, outWidth, outHeight);
    var vIn := VBase;
    if tailPadding > 0.0 {
      video := Append(video, PadTail(VBase, tailPadding, VPad));
      vIn := VPad;
    }
    if hasSubs {
      video := Append(video, BurnSubtitles(vIn, VOut));
    } else {
      video := Append(video, PassThrough(vIn, VOut));
    }
  }

  /** The chains that produce `[vbase]`: one prepared video, or two prepared,
      cropped and stacked. */
  method PlanBaseChain(split: bool, start1: real, start2: real, duration: real, outWidth: int, outHeight: int)
    returns (video: seq<VideoStage>)
    ensures Connected(video) && VBase in ProducedBy(video) && !HasTailPad(video)
    ensures forall i :: 0 <= i < |video| && video[i].Prepare? ==> video[i].input < (if split then 2 else 1)
    ensures video[0] == Prepare(0, start1, duration, if split then V1 else VBase)
    ensures split ==> video[1] == Prepare(1, start2, duration, V2)
  {
    if split {
      video := StackVideos(start1, start2, duration, outWidth, outHeight);
    } else {
      video := Append([], Prepare(0, start1, duration, VBase));
    }
  }

  /** The split-screen chains: both videos prepared, each cropped to its lower
      part at half the output height, and the two stacked into `[vbase]`. */
  method StackVideos(start1: real, start2: real, duration: real, outWidth: int, outHeight: int)
    returns (video: seq<VideoStage>)
    ensures Connected(video) && VBase in ProducedBy(video) && !HasTailPad(video)
    ensures video == [Prepare(0, start1, duration, V1), Prepare(1, start2, duration, V2),
                      CropLower(V1, outWidth, outHeight / 2, Top), CropLower(V2, outWidth, outHeight / 2, Bottom),
                      Stack(Top, Bottom, VBase)]
  {
    video := Append([], Prepare(0, start1, duration, V1));
    video := Append(video, Prepare(1, start2, duration, V2));
    video := Append(video, CropLower(V1, outWidth, outHeight / 2, Top));
    video := Append(video, CropLower(V2, outWidth, outHeight / 2, Bottom));
    video := Append(video, Stack(Top, Bottom, VBase));
  }

  /** Adds one stage whose inputs are already produced; the graph stays
      connected and gains the stage's output pad. */
  method Append(v: seq<VideoStage>, s: VideoStage) returns (w: seq<VideoStage>)
    requires Connected(v) && Consumes(s) <= ProducedBy(v)
    ensures w == v + [s]
    ensures Connected(w) && ProducedBy(w) == ProducedBy(v) + {s.out}
    ensures HasTailPad(w) <==> HasTailPad(v) || s.PadTail?
  {
    w := v + [s];
    assert w[..|v|] == v;
  }

  /** The audio chains: the narration padded with the tail and trimmed to the
      duration; then, with music, the trimmed music and the mix, else the
      `anull` filter. */
  method PlanAudioChains(ttsIndex: nat, musicIndex: Option<nat>, tail: real, duration: real, volume: real)
    returns (audio: seq<AudioStage>)
    ensures |audio| >= 2 && audio[0] == PadNarration(ttsIndex, tail, duration)
    ensures musicIndex.Some? ==> audio == [audio[0], TrimMusic(musicIndex.value, duration, volume), Mix]
    ensures musicIndex.None? ==> audio == [audio[0], PassAudio]
  {
    audio := [PadNarration(ttsIndex, tail, duration)];
    if musicIndex.Some? {
      audio := audio + [TrimMusic(musicIndex.value, duration, volume)];
      audio := audio + [Mix];
    } else {
      audio := audio + [PassAudio];
    }
  }

  // ---------------------------------------------------------------------------
  // Running the encoder

  const OutputMissing := "ffmpeg completed but output file is missing/empty"
  const EncoderFailed := "ffmpeg failed"

  /** Python `a or b or c` on texts. */
  function FirstNonEmpty(a: string, b: string, c: string): string {
    if a != [] then a else if b != [] then b else c
  }

  /** The end of `_compose_video_with_tts_ffmpeg`: the encoder's exit status
      and the size of its output (`None`: missing) decide the result. The
      subtitle script, written before the encoder ran, is removed on every
      path; `unlinkWorks` says whether that removal succeeds, and a failure
      is swallowed, so `scriptLeft` (the script is still on disk) never
      changes the result. */
  method FinishFfmpegRender(hasSubs: bool, returnCode: int, stderr: string, stdout: string, outputSize: Option<nat>,
                            unlinkWorks: bool)
    returns (r: Result<()>, scriptLeft: bool)
    ensures scriptLeft <==> hasSubs && !unlinkWorks
    ensures r.Ok? <==> returnCode == 0 && outputSize.Some? && outputSize.value > 0
    ensures returnCode != 0 ==> r == Err(RuntimeError(Strip(FirstNonEmpty(stderr, stdout, EncoderFailed))))
    ensures returnCode == 0 && r.Err? ==> r == Err(RuntimeError(OutputMissing))
  {
    scriptLeft := hasSubs;
    if returnCode != 0 {
      r := Err(RuntimeError(Strip(FirstNonEmpty(stderr, stdout, EncoderFailed))));
    } else if outputSize.None? || outputSize.value <= 0 {
      r := Err(RuntimeError(OutputMissing));
    } else {
      r := Ok(());
    }
    if hasSubs && unlinkWorks {
      scriptLeft := false;
    }
  }

  /** Python `max(1, min(8, int(os.cpu_count() or 1)))`. */
  function EncoderThreads(cpuCount: Option<int>): (n: int)
    ensures 1 <= n <= 8
    ensures cpuCount.Some? && 1 <= cpuCount.value <= 8 ==> n == cpuCount.value
    ensures cpuCount.Some? && cpuCount.value > 8 ==> n == 8
    ensures cpuCount.None? || cpuCount.value < 1 ==> n == 1
  {
    var c := if cpuCount.Some? && cpuCount.value != 0 then cpuCount.value else 1;
    if c < 1 then 1 else if c > 8 then 8 else c
  }

  // ---------------------------------------------------------------------------
  // Subclips

  /** The part of the source video a render uses: a window, or the tail from
      `start` looped to `duration`. */
  datatype Subclip = Window(start: real, end: real) | Looped(start: real, sourceEnd: real, duration: real)

  const ZeroDurationVideo := "Video has zero duration"

  /** `_choose_random_subclip_for_duration`. */
  function ChooseSubclip(videoDuration: real, duration: real, startTime: Option<real>, draw: real): Result<Subclip> {
    if videoDuration <= 0.0 then Err(ValueError(ZeroDurationVideo))
    else if duration <= 0.0 then Ok(Window(0.0, Min(videoDuration, 1.0)))
    else if videoDuration >= duration then
      var maxStart := Max(0.0, videoDuration - duration);
      var start :=
        if startTime.None? then (if maxStart > 0.0 then Uniform(0.0, maxStart, draw) else 0.0)
        else Min(Max(0.0, startTime.value), maxStart);
      Ok(Window(start, start + duration))
    else
      var start := if startTime.None? then 0.0 else Min(Max(0.0, startTime.value), Max(0.0, videoDuration - 0.01));
      Ok(Looped(start, videoDuration, duration))
  }

  /** A video with no duration is an error; a non-positive duration takes
      the first second (or the whole video, if shorter); a long enough video
      yields a window of exactly the duration inside the video, starting at
      an explicit start clamped to [0, video - duration]; a short one is
      looped from 0 or from an explicit start clamped to
      [0, max(0, video - 0.01)]. */
  lemma SubclipBounds(videoDuration: real, duration: real, startTime: Option<real>, draw: real)
    requires 0.0 <= draw <= 1.0
    ensures var r := ChooseSubclip(videoDuration, duration, startTime, draw);
      && (r.Err? <==> videoDuration <= 0.0)
      && (r.Err? ==> r.error == ValueError(ZeroDurationVideo))
      && (r.Ok? && r.value.Window? ==> 0.0 <= r.value.start <= r.value.end <= videoDuration)
      && (r.Ok? && duration > 0.0 && videoDuration >= duration ==>
            r.value.Window? && r.value.end - r.value.start == duration)
      && (r.Ok? && duration > 0.0 && videoDuration < duration ==>
            r.value.Looped? && 0.0 <= r.value.start <= Max(0.0, videoDuration - 0.01) && r.value.duration == duration)
    ensures videoDuration > 0.0 && duration <= 0.0 ==>
      ChooseSubclip(videoDuration, duration, startTime, draw) == Ok(Window(0.0, if videoDuration < 1.0 then videoDuration else 1.0))
    ensures startTime.Some? && 0.0 < duration <= videoDuration ==>
      var s, last := startTime.value, videoDuration - duration;
      var r := ChooseSubclip(videoDuration, duration, startTime, draw);
      && (0.0 <= s <= last ==> r == Ok(Window(s, s + duration)))
      && (s < 0.0 ==> r == Ok(Window(0.0, duration)))
      && (s > last ==> r == Ok(Window(last, videoDuration)))
    ensures 0.0 < videoDuration < duration ==>
      var last := Max(0.0, videoDuration - 0.01);
      var r := ChooseSubclip(videoDuration, duration, startTime, draw);
      && r.Ok? && r.value.Looped? && r.value.sourceEnd == videoDuration && r.value.duration == duration
      && (startTime.None? ==> r.value.start == 0.0)
      && (startTime.Some? && 0.0 <= startTime.value <= last ==> r.value.start == startTime.value)
      && (startTime.Some? && startTime.value < 0.0 ==> r.value.start == 0.0)
      && (startTime.Some? && startTime.value > last ==> r.value.start == last)
  {
    if videoDuration > 0.0 && duration > 0.0 && videoDuration >= duration && startTime.None? {
      UniformBounds(0.0, Max(0.0, videoDuration - duration), draw);
    }
  }

  // ---------------------------------------------------------------------------
  // Frame geometry

  /** A crop rectangle: top-left corner and size, in pixels. */
  datatype Crop = Crop(x: int, y: int, width: int, height: int)

  /** The helper `to_even`: odd values drop by one. */
  function ToEven(x: int): (r: int)
    ensures r % 2 == 0 && r <= x && x - r <= 1
  {
    if x % 2 == 0 then x else x - 1
  }

  /** Python `int((total - part) / 2)`: the offset that centres `part`. */
  function Centre(total: int, part: int): int {
    Trunc((total - part) as real / 2.0)
  }

  /** `_ensure_vertical_9_16` as written: a source wider than 9:16 keeps its
      height and gets its width cut to the largest even 9:16 width; a taller
      one keeps its width and gets its height cut to the largest even 16:9
      height; either way the cut is centred. A zero height divides by zero. */
  function CropToPortrait(width: nat, height: nat): Result<Crop> {
    if height == 0 then Err(ZeroDivisionError)
    else if (width as real) / (height as real) > 0.5625 then
      var newWidth := ToEven(Trunc(height as real * 0.5625));
      Ok(Crop(Centre(width, newWidth), 0, newWidth, height))
    else
      var newHeight := ToEven(Trunc(width as real / 0.5625));
      Ok(Crop(0, Centre(height, newHeight), width, newHeight))
  }

  lemma WiderThanPortrait(width: nat, height: nat)
    requires height > 0
    ensures (width as real) / (height as real) > 0.5625 <==> 16 * width > 9 * height
  {
    DivAbove(width as real, height as real, 0.5625);
    assert (16 * width) as real == 16.0 * (width as real) && (9 * height) as real == 9.0 * (height as real);
  }

  /** Comparing a quotient with a constant is comparing the dividend with the
      constant times the divisor. */
  lemma DivAbove(w: real, h: real, c: real)
    requires h > 0.0
    ensures w / h > c <==> w > c * h
  {
    var q := w / h;
    DivTimes(w, h);
    if q > c {
      MulStrict(h, c, q);
      assert c * h == h * c < h * q == w;
    } else {
      MulMonotone(h, q, c);
      assert w == h * q <= h * c == c * h;
    }
  }

  /** The crop as written: inside the source and centred in it, the kept
      dimension unchanged, and the cut dimension even and the largest even
      one within 9:16 of the other. */
  lemma CropToPortraitGeometry(width: nat, height: nat)
    ensures var r := CropToPortrait(width, height);
      && (r.Err? <==> height == 0)
      && (r.Ok? ==> var c := r.value;
        && 0 <= c.x && c.x + c.width <= width && 0 <= c.y && c.y + c.height <= height
        && 2 * c.x <= width - c.width <= 2 * c.x + 1
        && 2 * c.y <= height - c.height <= 2 * c.y + 1
        && (16 * width > 9 * height ==>
              c.height == height && c.width % 2 == 0 && 16 * c.width <= 9 * height < 16 * (c.width + 2))
        && (16 * width <= 9 * height ==>
              c.width == width && c.height % 2 == 0 && 9 * c.height <= 16 * width < 9 * (c.height + 2)))
  {
    if height > 0 {
      WiderThanPortrait(width, height);
      CropToPortraitEvenGeometry(width, height);
      var c, e := CropToPortrait(width, height).value, CropToPortraitEven(width, height).value;
      if 16 * width > 9 * height {
        assert c.x == e.x && c.width == e.width && c.y == 0 && c.height == height;
      } else {
        assert c.y == e.y && c.height == e.height && c.x == 0 && c.width == width;
      }
    }
  }

  /** As written, the dimension that is kept is not made even: a 1921 x 1081
      source gives a 608 x 1081 crop. */
  lemma OddHeightKept()
    ensures CropToPortrait(1921, 1081) == Ok(Crop(656, 0, 608, 1081))
    ensures CropToPortrait(1921, 1081).value.height % 2 == 1
  {
    WiderThanPortrait(1921, 1081);
    assert Trunc(1081.0 * 0.5625) == 608;
    assert Centre(1921, 608) == 656;
  }

  /** `_ensure_vertical_9_16` as its documentation promises: both crop
      dimensions even, the cut dimension as in the source and the kept one
      evened as well, each centred. */
  function CropToPortraitEven(width: nat, height: nat): Result<Crop> {
    if height == 0 then Err(ZeroDivisionError)
    else if (width as real) / (height as real) > 0.5625 then
      var newWidth := ToEven(Trunc(height as real * 0.5625));
      Ok(Crop(Centre(width, newWidth), Centre(height, ToEven(height)), newWidth, ToEven(height)))
    else
      var newHeight := ToEven(Trunc(width as real / 0.5625));
      Ok(Crop(Centre(width, ToEven(width)), Centre(height, newHeight), ToEven(width), newHeight))
  }

  /** The corrected crop: both dimensions even and non-negative, the crop
      inside the source and centred in it, and the cut dimension the largest
      even one within 9:16 of the other. */
  lemma CropToPortraitEvenGeometry(width: nat, height: nat)
    ensures var r := CropToPortraitEven(width, height);
      && (r.Err? <==> height == 0)
      && (r.Ok? ==> var c := r.value;
        && c.width % 2 == 0 && c.height % 2 == 0
        && 0 <= c.width && 0 <= c.height
        && 0 <= c.x && c.x + c.width <= width && 0 <= c.y && c.y + c.height <= height
        && 2 * c.x <= width - c.width <= 2 * c.x + 1
        && 2 * c.y <= height - c.height <= 2 * c.y + 1
        && (16 * width > 9 * height ==> 16 * c.width <= 9 * height < 16 * (c.width + 2))
        && (16 * width <= 9 * height ==> 9 * c.height <= 16 * width < 9 * (c.height + 2)))
  {
    if height > 0 {
      WiderThanPortrait(width, height);
      var h := height as real;
      var w := width as real;
      if 16 * width > 9 * height {
        var k := Trunc(h * 0.5625);
        CutWidth(height);
        CentreBounds(width, ToEven(k));
        CentreBounds(height, ToEven(height));
      } else {
        var k := Trunc(w / 0.5625);
        CutHeight(width);
        CentreBounds(width, ToEven(width));
        CentreBounds(height, ToEven(k));
      }
    }
  }

  /** `int(height * 9/16)`: the largest width within 9:16 of the height. */
  lemma CutWidth(height: nat)
    ensures var k := Trunc(height as real * 0.5625); 0 <= k && 16 * k <= 9 * height < 16 * (k + 1)
  {
    var x := height as real * 0.5625;
    var k := Trunc(x);
    assert x == (9 * height) as real / 16.0;
    assert (16 * k) as real <= (9 * height) as real < (16 * (k + 1)) as real;
  }

  /** `int(width / (9/16))`: the largest height within 16:9 of the width. */
  lemma CutHeight(width: nat)
    ensures var k := Trunc(width as real / 0.5625); 0 <= k && 9 * k <= 16 * width < 9 * (k + 1)
  {
    var x := width as real / 0.5625;
    var k := Trunc(x);
    assert x == (16 * width) as real / 9.0;
    assert (9 * k) as real <= (16 * width) as real < (9 * (k + 1)) as real;
  }

  lemma CentreBounds(total: int, part: int)
    requires 0 <= part <= total
    ensures 2 * Centre(total, part) <= total - part <= 2 * Centre(total, part) + 1
  {
  }

  /** `_create_split_screen_horizontal`'s geometry for a cropped height: each
      half is `to_even(height // 2)` tall, and the crop starts a quarter of
      the way down. */
  function SplitHalfHeight(height: nat): int { ToEven(height / 2) }

  function SplitCropStart(height: nat): int { Trunc(height as real * 0.25) }

  /** The two halves are even, fit the frame and leave at most three rows;
      the crop start is the floor of a quarter of the height. */
  lemma SplitScreenGeometry(height: nat)
    ensures var half := SplitHalfHeight(height);
      && half % 2 == 0 && half >= 0
      && 2 * half <= height < 2 * half + 4
    ensures var s := SplitCropStart(height);
      0 <= s && 4 * s <= height < 4 * s + 4
  {
  }

  // ---------------------------------------------------------------------------
  // Frame snapping (moviepy path)

  /** `base.fps or 30`. */
  function FrameRate(fps: Option<real>): real {
    if fps.Some? && fps.value != 0.0 then fps.value else 30.0
  }

  function FramesIn(duration: real, fps: real): int { Trunc(Scale(duration, fps)) }

  function FramesTime(k: int, fps: real): real
    requires fps != 0.0
  {
    (k as real) / fps
  }

  /** The moviepy path's duration: `int(duration * fps) / fps`, at least 0.01. */
  function SnapToFrames(duration: real, fps: real): real
    requires fps != 0.0
  {
    Max(0.01, FramesTime(FramesIn(duration, fps), fps))
  }

  /** For a non-negative duration and a positive rate, snapping lands on a
      whole number of frames no later than the duration and less than a frame
      before it; the 0.01 floor then applies. */
  lemma SnapToFramesBounds(duration: real, fps: real)
    requires duration >= 0.0 && fps > 0.0
    ensures var k := FramesIn(duration, fps); var t := FramesTime(k, fps);
      && k >= 0
      && t * fps == k as real
      && t <= duration < t + 1.0 / fps
      && SnapToFrames(duration, fps) == Max(0.01, t)
  {
    var k := FramesIn(duration, fps);
    var x := Scale(duration, fps);
    assert x >= 0.0;
    assert (k as real) <= x < (k as real) + 1.0;
    var t := FramesTime(k, fps);
    assert t * fps == k as real;
    var u := 1.0 / fps;
    assert u * fps == 1.0;
    assert (t + u) * fps == (k as real) + 1.0;
    TimesMonotone(t, duration, fps);
    TimesMonotone(duration, t + u, fps);
  }

  lemma TimesMonotone(a: real, b: real, f: real)
    requires f > 0.0
    ensures a * f <= Scale(b, f) ==> a <= b
    ensures Scale(a, f) < b * f ==> a < b
  {
    if a > b {
      MulStrictRight(b, a, f);
      assert Scale(b, f) < a * f;
    }
    if a >= b {
      MulMonotoneRight(b, a, f);
      assert b * f <= Scale(a, f);
    }
  }

  /** The moviepy path's duration: the narration plus any tail padding,
      snapped to frames of the clip's rate (30 when it has none). */
  function MoviepyDuration(audioDuration: real, tailPadding: real, fps: Option<real>): real {
    SnapToFrames(audioDuration + Max(0.0, tailPadding), FrameRate(fps))
  }

  /** For a narration of non-negative length and a clip rate that is not
      negative: the requested duration is the narration plus the tail
      padding when that is positive; the rate is the clip's, or 30 when it
      has none or 0; and the result is that request cut down to a whole
      number of frames, less than one frame short of it, and at least 0.01. */
  lemma MoviepyDurationMeaning(audioDuration: real, tailPadding: real, fps: Option<real>)
    requires audioDuration >= 0.0 && (fps.Some? ==> fps.value >= 0.0)
    ensures var d := audioDuration + Max(0.0, tailPadding);
      var rate := if fps.Some? && fps.value > 0.0 then fps.value else 30.0;
      var k := FramesIn(d, rate); var t := FramesTime(k, rate);
      && d == (if tailPadding > 0.0 then audioDuration + tailPadding else audioDuration)
      && FrameRate(fps) == rate
      && k >= 0 && t * rate == k as real
      && t <= d < t + 1.0 / rate
      && MoviepyDuration(audioDuration, tailPadding, fps) == Max(0.01, t)
  {
    SnapToFramesBounds(audioDuration + Max(0.0, tailPadding), FrameRate(fps));
  }

  // ---------------------------------------------------------------------------
  // The moviepy encoder's failure handling

  /** The moviepy encoder raised (or not) and left an output of
      `outputSize` bytes (`None`: no file); `unlinkWorks` says whether
      deleting the file succeeds. The result says whether the render
      succeeded and whether an output file remains. */
  datatype EncodeEnd = EncodeEnd(ok: bool, outputLeft: bool)

  /** As written (app/video.py:763-772): on an exception the output is deleted
      first, and only then checked for being present and non-empty, so a
      benign failure after a complete write is still reported unless the
      deletion itself failed. */
  function MoviepyEncodeEnd(raised: bool, outputSize: Option<nat>, unlinkWorks: bool): EncodeEnd {
    if !raised then EncodeEnd(true, outputSize.Some?)
    else
      var left := outputSize.Some? && !unlinkWorks;
      if left && outputSize.value > 0 then EncodeEnd(true, true) else EncodeEnd(false, left)
  }

  /** A complete output is discarded and the failure re-raised. */
  lemma CompleteOutputDiscarded()
    ensures MoviepyEncodeEnd(true, Some(1000000), true) == EncodeEnd(false, false)
  {
  }

  /** The evident intent: tolerate a failure that still left a non-empty
      output, and otherwise delete whatever partial file there is and
      re-raise. */
  function MoviepyEncodeEndChecked(raised: bool, outputSize: Option<nat>, unlinkWorks: bool): EncodeEnd {
    if !raised then EncodeEnd(true, outputSize.Some?)
    else if outputSize.Some? && outputSize.value > 0 then EncodeEnd(true, true)
    else EncodeEnd(false, outputSize.Some? && !unlinkWorks)
  }

  /** With the check first, a failure that left a non-empty output succeeds
      and keeps it, whether or not deletion works; a reported failure leaves
      at most an empty file, and none when deletion works. */
  lemma MoviepyEncodeEndCheckedMeaning(raised: bool, outputSize: Option<nat>, unlinkWorks: bool)
    ensures var e := MoviepyEncodeEndChecked(raised, outputSize, unlinkWorks);
      && (raised && outputSize.Some? && outputSize.value > 0 ==> e == EncodeEnd(true, true))
      && (!e.ok ==> raised && (outputSize.None? || outputSize.value == 0))
      && (!e.ok && unlinkWorks ==> !e.outputLeft)
  {
  }

  // ---------------------------------------------------------------------------
  // Renderer dispatch

  datatype Renderer = FfmpegRenderer | MoviepyRenderer

  /** Which renderers `compose_video_with_tts` runs, in order, and the result
      it returns, given what each renderer would produce. */
  datatype Dispatched = Dispatched(tried: seq<Renderer>, result: Result<()>)

  /** The renderer name, trimmed and lower-cased (`None` reads as ""). */
  function RendererName(renderer: Option<string>): string {
    Lower(Strip(if renderer.Some? then renderer.value else []))
  }

  /** `compose_video_with_tts`: "moviepy" and "python" go to moviepy alone;
      anything else tries ffmpeg and falls back to moviepy on any error. */
  function Dispatch(renderer: Option<string>, ffmpeg: Result<()>, moviepy: Result<()>): Dispatched {
    var r := RendererName(renderer);
    if r == "moviepy" || r == "python" then Dispatched([MoviepyRenderer], moviepy)
    else if ffmpeg.Ok? then Dispatched([FfmpegRenderer], ffmpeg)
    else Dispatched([FfmpegRenderer, MoviepyRenderer], moviepy)
  }

  /** Dispatch properties: the result is that of the last renderer tried;
      ffmpeg is tried first unless moviepy is asked for; moviepy runs at most
      once and only when asked for or after ffmpeg failed; a request for
      moviepy is recognised whatever its case and surrounding whitespace. */
  lemma DispatchMeaning(renderer: Option<string>, ffmpeg: Result<()>, moviepy: Result<()>)
    ensures var d := Dispatch(renderer, ffmpeg, moviepy); var r := RendererName(renderer);
      && 1 <= |d.tried| <= 2
      && d.result == (if d.tried[|d.tried| - 1] == FfmpegRenderer then ffmpeg else moviepy)
      && ((r == "moviepy" || r == "python") <==> d.tried == [MoviepyRenderer])
      && (MoviepyRenderer in d.tried <==> (r == "moviepy" || r == "python" || ffmpeg.Err?))
      && (d.result.Err? ==> moviepy.Err?)
  {
  }

  /** A request for moviepy is recognised whatever its case and the
      whitespace around it: any spelling of "moviepy" or "python", padded
      with whitespace, runs moviepy alone and returns its result. */
  lemma DispatchIgnoresCaseAndSpace(left: string, name: string, right: string, ffmpeg: Result<()>, moviepy: Result<()>)
    requires forall i :: 0 <= i < |left| ==> IsSpace(left[i])
    requires forall i :: 0 <= i < |right| ==> IsSpace(right[i])
    requires Lower(name) == "moviepy" || Lower(name) == "python"
    ensures RendererName(Some(left + name + right)) == Lower(name)
    ensures Dispatch(Some(left + name + right), ffmpeg, moviepy) == Dispatched([MoviepyRenderer], moviepy)
  {
    var low := Lower(name);
    assert |name| == |low| > 0;
    assert low[0] == LowerChar(name[0]) && (low[0] == 'm' || low[0] == 'p');
    assert low[|low| - 1] == LowerChar(name[|name| - 1]) && (low[|low| - 1] == 'y' || low[|low| - 1] == 'n');
    StripPadded(left, name, right);
  }
}
