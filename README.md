# VidGenerator core, modelled in Dafny

VidGenerator turns a script into a short vertical video. It synthesizes
narration with TikTok text-to-speech, times captions or karaoke words
against that narration, renders them as an ASS (SubStation Alpha v4.00+)
subtitle track, and composes the background video, narration and optional
music with ffmpeg or moviepy. Finished videos can be queued for YouTube
upload, and a rate limiter with a retry counter governs the uploads.
Each web user has a monthly video quota.

This project models the deterministic bookkeeping of that pipeline:

- timing, text and geometry;
- counters, queues and retry decisions.

It proves what the code promises about them. The modules follow the
source files:

| module | file | form |
|---|---|---|
| `Common` | shared | `Option`, `Result` and the Python exception kinds (`ValueError`, `RuntimeError`, `ZeroDivisionError`); truncation toward zero |
| `Text` | shared | Python's `str.split()`, `strip()`, `" ".join`, `str.replace`, ASCII `lower()`, decimal formatting, with round-trip lemmas |
| `Captions` | `app/captions.py` | the allocators and the alignment as methods with loops, each proved equal to a specification function whose coverage properties are lemmas |
| `SubtitleScript` | `app/video.py` (ASS part) | `_ass_time`, `_ass_escape_text`, `_write_ass_subtitles` (a method appending lines), `_ffmpeg_filter_escape_path` |
| `Composition` | `app/video.py` (rest) | the ffmpeg command plan built step by step, encoder exit handling, subclip clamps, the 9:16 crop, split-screen halves, frame snapping, the moviepy exception handler and the renderer dispatch |
| `TikTokTts` | `app/tts/tiktok.py` | the sentence chunker (a loop), the MP3 sanity check, the endpoint list, the endpoint fallback loop and the chunked synthesis |
| `YouTubeUploader` | `app/youtube_uploader.py` | the rate limiter and queue status as functions; `class UploadManager` with the queue, history and files as fields its methods update |
| `UserQuota` | `models.py` | the tier quota and `class User` with its monthly counter |

Durations are `real`. Python's `int()` on a float is truncation toward
zero (`Common.Trunc`), and `math.isclose` is the exact tolerance test.
Random draws, probe results, clocks, file contents, HTTP responses and
encoder exit codes are parameters.

## Model

| member | source | states |
|---|---|---|
| Captions.ResolveDuration | app/captions.py:26-29 | an explicit duration is used as given; otherwise the audio estimate is used; a `ValueError` is raised exactly when both the duration and the audio path are missing |
| Captions.GroupsShape | app/captions.py:36-45 | the word groups concatenate back to the word list; every group but the last has 5 words; the last has 1 to 7, and at least 3 when there are more than 7 words |
| Captions.GroupWords | app/captions.py:36-45 | the grouping loop yields exactly the groups of `Groups` |
| Captions.LayOutGroups | app/captions.py:47-55 | the span-building loop yields the clamped contiguous layout `LayOut` starting at 0 |
| Captions.NudgeShortSpans | app/captions.py:62-64 | each span is nudged on its own, and the count is unchanged |
| Captions.AllocateCaptionSpans | app/captions.py:16-66 | the allocator returns the specification `AllocateCaptionSpansSpec`: the missing-duration error, the single empty span for blank text, or the nudged layout of the groups |
| Captions.LaidExact | app/captions.py:47-59 | with a non-negative total, the `min` clamps never bite: the laid-out spans are exactly the per-word times of the groups, with the last end at the total |
| Captions.CaptionLayoutCoverage | app/captions.py:47-59 | one span per group, text the group joined by spaces, first start 0, each start the previous end, every span inside [0, total], last end equal to the total, each start proportional to the words before it |
| Captions.CaptionSpansPositive | app/captions.py:62-64 | after the nudge every span has positive length, starts and texts are unchanged, a span whose laid-out end was within `isclose` tolerance of its start ends at start + 0.05, and every other span keeps its end |
| Captions.EmptyTextCaption | app/captions.py:31-33 | whitespace-only text yields the single span (0, total, "") |
| Captions.TenWordsTwoSpans | app/captions.py:36-59 | ten words over 10 s give the spans (0, 5) and (5, 10) with five words each |
| Captions.AllocateKaraokeWordSpans | app/captions.py:69-101 | the karaoke allocator returns `AllocateKaraokeWordSpansSpec`: the error, the single indexed empty span, or the weighted layout with the last end pinned |
| Captions.LayOutTokens | app/captions.py:92-98 | the weighted span loop yields `KaraokeLayOut` |
| Captions.KaraokeCoverage | app/captions.py:88-100 | one span per token, text the token, index its position, contiguous from 0 to the total, each duration total * max(1, len) / sum of weights |
| Captions.KaraokeExact | app/captions.py:89-100 | with a non-negative total the clamped karaoke layout equals the exact proportional one |
| Captions.EmptyTextKaraoke | app/captions.py:84-86 | blank text yields the single span (0, total, "", index 0) |
| Captions.AlignWhisperToOriginal | app/captions.py:136-170 | the alignment loop returns `AlignSpec` |
| Captions.AlignShape | app/captions.py:141-170 | with both token lists non-empty and counts within 2, one entry per lower-cased original word token, transcribed timings by index, and 0.5 s spans chained after the last end for extra tokens; otherwise the transcription unchanged |
| Captions.WordTokensOfJoin | app/captions.py:141 | the `\b\w+\b` tokenizer reads back any space-joined list of word tokens |
| Captions.TimestampsNonEmpty | app/captions.py:110-133 | the timestamp list is never empty: without the recognizer the karaoke estimate is used, and an empty transcription becomes the single placeholder word spanning the estimate |
| Captions.WordsToKaraokeSpans | app/captions.py:173-182 | same length and order, index equal to position, text stripped, times copied |
| Captions.AlignedSpansCarryTokens | app/captions.py:136-182 | karaoke spans built from an aligned transcription carry the original tokens, in order, indexed by position |
| SubtitleScript.RoundHalfEvenMeaning | app/video.py:84 | Python `round` lands within 0.5 and breaks ties to the even integer |
| SubtitleScript.AssClockMeaning | app/video.py:79-87 | negative times clamp to 0; hours, minutes and seconds recompose the whole seconds, minutes and seconds are below 60, and centiseconds below 99 are the fraction rounded to within half a centisecond, ties to even, while 99 stands only for a fraction of at least 98.5 (the cap of a rounded 100) |
| SubtitleScript.ParseFormatClock | app/video.py:87 | the `H:MM:SS.CC` text parses back to the clock it was formatted from |
| SubtitleScript.AssTimeReadsBack | app/video.py:79-87 | every formatted timestamp parses back to its clock |
| SubtitleScript.AssEscapeProperties | app/video.py:90-95 | the escaped text has no raw CR or LF, is empty only for empty input, and unescapes back to the newline-normalized input (backslashes doubled before braces are escaped) |
| SubtitleScript.AssEscapeIsCharwise | app/video.py:90-95 | the chain of replacements escapes each character on its own |
| SubtitleScript.CaptionFontSize | app/video.py:115 | the caption font size is max(28, int(h * 0.035)) |
| SubtitleScript.KaraokeFontSize | app/video.py:116 | the karaoke font size is max(28, int(h * 0.040)) |
| SubtitleScript.WriteAssSubtitles | app/video.py:98-158 | the writer produces `AssScript`: nothing without spans, else the header and the dialogue lines |
| SubtitleScript.AssScriptWritten | app/video.py:105-108 | a script is written exactly when the caption spans or the karaoke spans are present and non-empty |
| SubtitleScript.AppendDialogues | app/video.py:138-154 | the appending loop adds exactly the dialogue lines of the cues, in order |
| SubtitleScript.AppendEvents | app/video.py:110-154 | the event lines are the karaoke cues' dialogue lines, centred, when there are karaoke cues, and otherwise the caption cues' lines at 78% of the height |
| SubtitleScript.DialoguesOfShown | app/video.py:140-154 | one Dialogue line per span whose stripped text is non-empty, in input order, and none for empty ones |
| SubtitleScript.KaraokeTakesPrecedence | app/video.py:105-154 | with karaoke spans present the caption spans do not affect the script; with neither, no script is written |
| SubtitleScript.FilterEscapeCharwise | app/video.py:161-165 | the path escaper maps `\` to `/`, `:` to `\:` and `'` to `\'` character by character |
| SubtitleScript.FilterUnescapeEscape | app/video.py:161-165 | unescaping the escaped path gives the path with backslashes turned into slashes |
| Composition.UniformBounds | app/video.py:205 | a draw in [0, 1] gives a uniform value within [lo, hi] |
| Composition.StartOffsetBounds | app/video.py:200-214 | the start offset is never negative; an explicit start is clamped at 0; a random start stays within max(0, duration - 1) |
| Composition.PlanFfmpegRender | app/video.py:168-290 | a failed probe raises; duration = probed + max(0, tail), floored at 0.01; TTS input index 1 or 2 with the second video; music index right after it only when music is chosen and exists; `tpad` exactly when tail > 0; `subtitles` exactly when a track was written, else `null`; `amix` exactly with music; the plain layout (no second video, no music) has exactly two inputs, the looped main video then the narration |
| Composition.PlanInputs | app/video.py:233-245 | the input list: main video, the optional second video, the narration, the optional music, at the stated indices |
| Composition.PlanVideoChains | app/video.py:247-274 | the video filter graph is connected, ends in `[vout]`, pads only when tail > 0 and burns subtitles only when a track exists |
| Composition.StackVideos | app/video.py:256-260 | the split-screen chains are the two trimmed inputs, their lower three quarters as `[top]` and `[bot]`, and their vertical stack into `[vbase]`; the chain is connected |
| Composition.ConnectedMeaning | app/video.py:254-274 | a filter chain is connected exactly when every stage reads only pads written by the stages before it |
| Composition.PlanAudioChains | app/video.py:276-283 | the narration is padded and trimmed to the duration, then mixed with the trimmed music or passed through |
| Composition.FinishFfmpegRender | app/video.py:298-311 | removing the subtitle file is attempted on every exit and it stays only when that removal fails, which never changes the result; a non-zero exit raises with the stripped stderr, else stdout, else a fixed text; a missing or empty output raises; otherwise success |
| Composition.EncoderThreads | app/video.py:295 | the thread count is the CPU count clamped to [1, 8]: the count itself between 1 and 8, 8 above that, and 1 when the count is unknown, 0 or negative |
| Composition.SubclipBounds | app/video.py:314-336 | a zero-length video raises; a non-positive duration takes [0, min(video, 1)]; a long enough video gives a window of exactly the duration inside the video, from an explicit start kept when in [0, video - duration] and clamped to that range otherwise; a short one is looped to the duration from 0, or from an explicit start clamped to [0, max(0, video - 0.01)] |
| Composition.WiderThanPortrait | app/video.py:546-548 | the aspect test w / h > 9/16 is the integer test 16w > 9h |
| Composition.CropToPortraitGeometry | app/video.py:546-568 | the crop as written: an error exactly for a zero height; the crop lies inside the source and is centred to within a pixel; the kept dimension is unchanged; the cut one is even and the largest even size within 9:16 of the other |
| Composition.OddHeightKept | app/video.py:531-568 | as written, a 1921x1081 source gives the crop 608x1081, whose height is odd |
| Composition.CropToPortraitEvenGeometry | app/video.py:531-568 | the corrected crop has even dimensions, lies inside the source, is centred to within one pixel, and is the widest even 9:16 cut of the limiting side |
| Composition.CentreBounds | app/video.py:552-563 | the centring offset splits the margin to within one pixel |
| Composition.SplitScreenGeometry | app/video.py:598-603 | the split-screen half height is even and two halves fit the frame; the crop start is a quarter of the height |
| Composition.SnapToFramesBounds | app/video.py:688-690 | the moviepy duration is a whole number of frames, not above the requested duration and less than one frame below it, floored at 0.01 |
| Composition.MoviepyDurationMeaning | app/video.py:688-690 | the requested duration is the narration plus the tail padding when positive (line 661); the rate is the clip's, or 30 when it has none; the result is a whole number of frames at that rate, not above the request and less than one frame below it, floored at 0.01 |
| Composition.CompleteOutputDiscarded | app/video.py:763-772 | as written, a benign encoder exception after a complete output still deletes the output and re-raises |
| Composition.MoviepyEncodeEndCheckedMeaning | app/video.py:763-772 | the corrected handler keeps a non-empty output and raises only when no usable output exists |
| Composition.DispatchMeaning | app/video.py:826-887 | "moviepy" or "python" (stripped, any case) goes only to moviepy; anything else tries ffmpeg and falls back to moviepy exactly when ffmpeg fails; a failure is always moviepy's |
| Composition.DispatchIgnoresCaseAndSpace | app/video.py:826-828 | any spelling of "moviepy" or "python" in any case, with whitespace around it, is read as its lower-case form and runs moviepy alone |
| TikTokTts.SplitTerminatorRunsKeepsText | app/tts/tiktok.py:34 | splitting on runs of `.!?` drops exactly the terminators and keeps the rest of the text in order |
| TikTokTts.PackIsGreedy | app/tts/tiktok.py:38-52 | the packing keeps all sentences in order, no group is empty, multi-sentence groups fit, and each new chunk starts exactly when adding the sentence would exceed the limit |
| TikTokTts.ChunkText | app/tts/tiktok.py:29-54 | the chunking loop returns the sentences packed greedily and joined by ". " |
| TikTokTts.ChunkTextMeaning | app/tts/tiktok.py:29-54 | chunks are non-empty, hold the stripped sentences in order, multi-sentence chunks are at most max_chars, and a chunk boundary falls exactly where `len(cur) + len(s) + 2 > max_chars` |
| TikTokTts.Mp3SanityCheckMeaning | app/tts/tiktok.py:57-69 | a missing file or one below 256 bytes is rejected with its message; a file is accepted exactly when it starts with "ID3" or with 0xFF followed by a byte whose top three bits are set |
| TikTokTts.ConfiguredEndpointsMeaning | app/tts/tiktok.py:72-77 | an unset or blank variable configures nothing, and no configured entry contains a comma |
| TikTokTts.EndpointsOfList | app/tts/tiktok.py:72-77 | a comma-joined list of clean URLs reads back as that list |
| TikTokTts.Endpoints | app/tts/tiktok.py:72-84 | the endpoint list is never empty |
| TikTokTts.SynthesizeSingleChunk | app/tts/tiktok.py:124-187 | endpoints are tried in order and the first that succeeds and passes the MP3 check wins; when all fail the error lists the last four failures joined by "; " |
| TikTokTts.FailureLinesAllFail | app/tts/tiktok.py:181-186 | when every endpoint fails, there is one error line per endpoint, in order, naming the endpoint and its error |
| TikTokTts.SynthesizeTikTokTts | app/tts/tiktok.py:87-121 | empty text raises `ValueError` without requests; text of at most 200 characters is one unchunked request; longer text is synthesized chunk by chunk in order |
| TikTokTts.SynthesizeChunks | app/tts/tiktok.py:103-121 | one request per chunk with suffix `_chunk<i>` in order, stopping at the first failure; on success the clips are in chunk order and every chunk file is deleted |
| YouTubeUploader.RecentMembers | app/youtube_uploader.py:145-148 | the recent uploads are exactly the history entries with now - timestamp below the window |
| YouTubeUploader.RecentConcat | app/youtube_uploader.py:145-148 | the counted uploads keep the history's order, one per record inside the window: a history in two parts counts as its parts, one after the other |
| YouTubeUploader.CanUploadNowMeaning | app/youtube_uploader.py:137-160 | uploading is allowed exactly when fewer than 10 uploads are recent, with 10 - count remaining (at least 1); when blocked the wait in seconds is non-negative, and at most a day when no upload lies in the future |
| YouTubeUploader.TenUploadsBlock | app/youtube_uploader.py:137-160 | ten uploads within the last hour block the next one |
| YouTubeUploader.QueueStatusMeaning | app/youtube_uploader.py:409-423 | remaining is the allowance when allowed and 0 otherwise; the wait is 0 when allowed |
| YouTubeUploader.UploadManager.Status | app/youtube_uploader.py:409-423 | the manager's status reports its queue length and number of uploaded videos; read at one instant, the remaining uploads and today's count add up to 10 when an upload is allowed, and otherwise nothing remains and a non-negative wait is reported |
| YouTubeUploader.RunUploadRequest | app/youtube_uploader.py:253-275 | the request loop ends as `Drive` describes over the sequence of chunk outcomes |
| YouTubeUploader.DriveMeaning | app/youtube_uploader.py:253-275 | each call is made only while fewer than 3 retries are used; only HTTP 500/502/503/504 is retried, and such a failure ends the loop only when it uses the third retry; any other error stops the loop; the loop responds, with that id, exactly when its last call gave a response; the error reported is the message of the last failed call ("Retriable error: ", "Non-retriable error: " or "Unexpected error: " and its text) |
| YouTubeUploader.LoadStoreAll | app/youtube_uploader.py:509-553 | loading what was saved gives back the queue in order |
| YouTubeUploader.LoadFilterMeaning | app/youtube_uploader.py:509-516 | loading keeps every entry with both metadata and added time, every loaded item is such an entry of the file (so the others are dropped), and reloading is stable |
| YouTubeUploader.LoadFilterConcat | app/youtube_uploader.py:509-516 | loading keeps the file's order: a file in two parts loads as the first part's items followed by the second's |
| YouTubeUploader.UploadManager.constructor | app/youtube_uploader.py:70-96 | a new manager has no service and loads the saved queue and uploads |
| YouTubeUploader.UploadManager.LoadUploadQueue | app/youtube_uploader.py:501-530 | the loop appends the well-formed saved items, in order |
| YouTubeUploader.UploadManager.SaveUploadQueue | app/youtube_uploader.py:532-584 | draining and refilling leaves the queue's contents and order unchanged, and the file holds the queue |
| YouTubeUploader.UploadManager.AddVideoToQueue | app/youtube_uploader.py:162-202 | an existing file is appended with attempts 0 and max_attempts 3 and saved; a missing file changes nothing |
| YouTubeUploader.UploadManager.RecordUpload | app/youtube_uploader.py:384-398 | the same record is appended to both the history and the uploaded list, which are saved |
| YouTubeUploader.UploadManager.UploadVideo | app/youtube_uploader.py:204-295 | without a service it fails "YouTube API not initialized"; when rate-limited it fails with `retry_after` = wait; otherwise it records the upload exactly when a video id comes back, and on success saves the uploads file with the new list |
| YouTubeUploader.UploadManager.WorkerStep | app/youtube_uploader.py:314-382 | the worker takes the first item when allowed; a failed upload re-queues it with attempts + 1 only while attempts + 1 < max_attempts; the queue never grows; after an attempt on an existing file the queue file holds the new queue, and nothing is saved when the file is missing or nothing was attempted; success holds exactly when a service exists and the upload returned a video id, and then the history gains that record and the uploads file is saved; otherwise history and uploads file are unchanged; service and token never change |
| YouTubeUploader.UploadManager.ResetIntegration | app/youtube_uploader.py:425-477 | the service always goes; the token file, and with the flags the queue file and the uploads file, are removed when present; a failed removal skips every later step and returns false, so the result is true exactly when no removal failed; the queue is drained only with `clear_queue` and both history lists are emptied only with `clear_history`, each once the steps before it succeeded |
| UserQuota.QuotaFor | models.py:28-35 | free 5, starter 25, pro 100, any other tier 5 |
| UserQuota.User.CanGenerateVideo | models.py:37-46 | a new calendar month resets the counter to 0 and the reset date to now; within the month nothing changes; the answer is counter < quota |
| UserQuota.User.IncrementUsage | models.py:48-51 | the counter rises by exactly one |
| UserQuota.ReplayWithinQuota | models.py:37-51 | checking before each generation keeps a month's count at most at the quota |

## Left out

- Subprocesses and media I/O are not modelled: ffprobe, ffmpeg, moviepy decoding and encoding, and the audio-length estimate. Probe results, exit codes and output sizes are parameters.
- PIL caption rendering and font search (`_render_captions_layers`, `_render_karaoke_overlay`) are left out because they depend on font metrics.
- Random draws (`random.uniform`, the music choice, `_random_device_id`, uuid names) are parameters in [0, 1] or given values.
- Whisper inference is left out; only the alignment and the empty-result fallback over a given word list are modelled.
- HTTP requests, JSON decoding, base64 and `_concatenate_audio_files` are not modelled. Each endpoint's outcome is a given `Fetch`, and each chunk's synthesis is a given function.
- OAuth, the Google API client and the resumable upload's HTTP calls are not modelled. Each chunk response is a given `ChunkOutcome`.
- JSON persistence is modelled as fields holding the saved lists. Removing a corrupt queue file is left out.
- The background thread, lock and sleeps of the upload worker are left out; one worker step is modelled.
- The database session in models.py is left out.
- Floating point is modelled as exact reals, so IEEE rounding drift is not captured.
- `Text.Lower` and the `\w` class of the alignment tokenizer are ASCII-only, while Python's are Unicode-aware.
- Composition.PlanFfmpegRender produces the plan's structure (inputs, stages, indices and durations), not the command-line text.
- Composition.MoviepyDuration covers only the duration and frame snapping of the moviepy path. The compositing, music window and audio mixing there are left out.
- MoviepyDurationMeaning: stated for a narration of non-negative length and a clip rate that is not negative, the only values a decoded clip has; a negative rate would turn the frame bounds around.
- YouTubeUploader.RunUploadRequest runs over a finite list of chunk outcomes, so running out of outcomes ends the loop without a response.
- TikTokTts.SynthesizeSingleChunk takes the endpoint list as a parameter (the caller passes `Endpoints(env)`). It does not model the partial output file left behind by a failed endpoint.
- TikTokTts.SynthesizeChunks does not model the concatenation itself, only the order of the clips handed to it.
- YouTubeUploader.UploadManager.WorkerStep does not model the cleanup of the uploaded file or the "attempts" key missing from old queue files.

## Findings

| source | as written | input that shows it | evidently intended | confidence | as-written member | corrected member |
|---|---|---|---|---|---|---|
| app/video.py:763-772 | the exception handler deletes the output file before checking whether a non-empty output exists, so the tolerance branch can succeed only if the deletion itself fails | the encoder raises after writing a complete 1 MB output, and deletion works: the output is deleted and the exception re-raised | keep a non-empty output and raise only when none exists | not executed | Composition.CompleteOutputDiscarded | Composition.MoviepyEncodeEndCheckedMeaning |
| app/video.py:531-568 | `_ensure_vertical_9_16` makes only the cut dimension even and passes the other through, although it promises that both are divisible by 2 | a 1921x1081 source gives a 608x1081 crop with odd height | both crop dimensions even, centred | not executed | Composition.OddHeightKept | Composition.CropToPortraitEvenGeometry |
