/** The TikTok text-to-speech client's own logic (app/tts/tiktok.py): the
    sentence chunker, the MP3 sanity check, the endpoint list, the endpoint
    fallback loop and the branching between one request and chunked
    synthesis. The HTTP requests, base64 decoding and audio concatenation are
    outside the model: each endpoint's outcome is an input. */
module TikTokTts {
  import opened Common
  import opened Text

  // ---------------------------------------------------------------------------
  // Sentence splitting

  predicate IsTerminator(c: char) { c == '.' || c == '!' || c == '?' }

  predicate NoTerminator(s: string) {
    forall i :: 0 <= i < |s| ==> !IsTerminator(s[i])
  }

  /** The number of leading characters that are not sentence terminators. */
  function PieceLength(s: string): (n: nat)
    ensures n <= |s|
    ensures forall i :: 0 <= i < n ==> !IsTerminator(s[i])
    ensures n < |s| ==> IsTerminator(s[n])
  {
    if s == [] || IsTerminator(s[0]) then 0 else 1 + PieceLength(s[1..])
  }

  /** The number of leading sentence terminators. */
  function RunLength(s: string): (n: nat)
    ensures n <= |s|
    ensures forall i :: 0 <= i < n ==> IsTerminator(s[i])
    ensures n < |s| ==> !IsTerminator(s[n])
  {
    if s == [] || !IsTerminator(s[0]) then 0 else 1 + RunLength(s[1..])
  }

  /** Python `re.split(r'[.!?]+', s)`: the pieces between maximal runs of
      terminators, with an empty piece before a leading run and after a
      trailing one. */
  function SplitTerminatorRuns(s: string): (r: seq<string>)
    ensures |r| >= 1
    ensures forall i :: 0 <= i < |r| ==> NoTerminator(r[i])
    decreases |s|
  {
    var k := PieceLength(s);
    if k == |s| then [s]
    else
      var t := RunLength(s[k..]);
      [s[..k]] + SplitTerminatorRuns(s[k..][t..])
  }

  /** The characters of `s` that are not terminators, in order. */
  function DropTerminators(s: string): string {
    if s == [] then []
    else if IsTerminator(s[0]) then DropTerminators(s[1..])
    else [s[0]] + DropTerminators(s[1..])
  }

  function Concat(parts: seq<string>): string {
    if parts == [] then [] else parts[0] + Concat(parts[1..])
  }

  lemma {:induction false} DropTerminatorsAppend(a: string, b: string)
    ensures DropTerminators(a + b) == DropTerminators(a) + DropTerminators(b)
    decreases |a|
  {
    if a != [] {
      assert (a + b)[1..] == a[1..] + b;
      DropTerminatorsAppend(a[1..], b);
    } else {
      assert a + b == b;
    }
  }

  lemma {:induction false} DropTerminatorsOfPiece(s: string)
    requires NoTerminator(s)
    ensures DropTerminators(s) == s
    decreases |s|
  {
    if s != [] {
      DropTerminatorsOfPiece(s[1..]);
    }
  }

  lemma {:induction false} DropTerminatorsOfRun(s: string)
    requires forall i :: 0 <= i < |s| ==> IsTerminator(s[i])
    ensures DropTerminators(s) == []
    decreases |s|
  {
    if s != [] {
      DropTerminatorsOfRun(s[1..]);
    }
  }

  /** The pieces hold exactly the text's characters other than terminators,
      in their order. */
  lemma {:induction false} SplitTerminatorRunsKeepsText(s: string)
    ensures Concat(SplitTerminatorRuns(s)) == DropTerminators(s)
    decreases |s|
  {
    var k := PieceLength(s);
    if k == |s| {
      DropTerminatorsOfPiece(s);
    } else {
      var a, u := s[..k], s[k..];
      var t := RunLength(u);
      var b, rest := u[..t], u[t..];
      assert s == a + (b + rest);
      DropPieceAndRun(a, b, rest);
      SplitTerminatorRunsKeepsText(rest);
      var pieces := SplitTerminatorRuns(rest);
      assert SplitTerminatorRuns(s) == [a] + pieces;
      assert ([a] + pieces)[1..] == pieces;
    }
  }

  lemma {:induction false} DropPieceAndRun(a: string, b: string, rest: string)
    requires NoTerminator(a)
    requires forall i :: 0 <= i < |b| ==> IsTerminator(b[i])
    ensures DropTerminators(a + (b + rest)) == a + DropTerminators(rest)
  {
    DropTerminatorsAppend(b, rest);
    DropTerminatorsOfRun(b);
    DropTerminatorsAppend(a, b + rest);
    DropTerminatorsOfPiece(a);
  }

  /** A sentence as the chunker sees it: non-empty, stripped, and free of
      terminators. */
  predicate IsSentence(s: string) {
    s != [] && !IsSpace(s[0]) && !IsSpace(s[|s| - 1]) && NoTerminator(s)
  }

  /** `[s.strip() for s in pieces if s.strip()]`. */
  function CleanPieces(pieces: seq<string>): (r: seq<string>)
    requires forall i :: 0 <= i < |pieces| ==> NoTerminator(pieces[i])
    ensures forall i :: 0 <= i < |r| ==> IsSentence(r[i])
  {
    if pieces == [] then []
    else
      var s := Strip(pieces[0]);
      assert NoTerminator(s) by {
        var l := LeadingSpaces(pieces[0]);
        assert s == pieces[0][l..l + |s|];
        assert NoTerminator(pieces[0]);
        forall i | 0 <= i < |s| ensures !IsTerminator(s[i]) {
          assert s[i] == pieces[0][l + i];
          assert !IsTerminator(pieces[0][l + i]);
        }
      }
      if s != [] then [s] + CleanPieces(pieces[1..]) else CleanPieces(pieces[1..])
  }

  /** The sentences of a text, in order. */
  function Sentences(text: string): (r: seq<string>)
    ensures forall i :: 0 <= i < |r| ==> IsSentence(r[i])
  {
    CleanPieces(SplitTerminatorRuns(Strip(text)))
  }

  // ---------------------------------------------------------------------------
  // Chunking

  const SentenceGlue := ". "

  /** The concatenation of groups, group after group. */
  function Flatten(groups: seq<seq<string>>): seq<string> {
    if groups == [] then [] else Flatten(groups[..|groups| - 1]) + groups[|groups| - 1]
  }

  /** The greedy packing the chunker performs, on groups of sentences: `done`
      holds the finished groups and `cur` the group being filled. A sentence
      opens a new group exactly when the current one is non-empty and adding
      the sentence and its ". " would pass `maxChars`. */
  function PackFrom(ss: seq<string>, maxChars: int, done: seq<seq<string>>, cur: seq<string>): seq<seq<string>>
    decreases |ss|
  {
    if ss == [] then (if cur == [] then done else done + [cur])
    else if cur != [] && |Join(SentenceGlue, cur)| + |ss[0]| + 2 > maxChars then
      PackFrom(ss[1..], maxChars, done + [cur], [ss[0]])
    else PackFrom(ss[1..], maxChars, done, cur + [ss[0]])
  }

  function Pack(ss: seq<string>, maxChars: int): seq<seq<string>> {
    PackFrom(ss, maxChars, [], [])
  }

  /** The chunk texts of the groups: each group's sentences joined by ". ". */
  function ChunkTexts(groups: seq<seq<string>>): (r: seq<string>)
    ensures |r| == |groups|
    ensures forall i :: 0 <= i < |r| ==> r[i] == Join(SentenceGlue, groups[i])
  {
    if groups == [] then [] else ChunkTexts(groups[..|groups| - 1]) + [Join(SentenceGlue, groups[|groups| - 1])]
  }

  /** A greedy packing: no group is empty, a group of two or more sentences
      fits in `maxChars`, and each group after the first exists because its
      first sentence would not have fitted in the group before it. */
  predicate Greedy(groups: seq<seq<string>>, maxChars: int) {
    && (forall i :: 0 <= i < |groups| ==> groups[i] != [])
    && (forall i :: 0 <= i < |groups| && |groups[i]| >= 2 ==> |Join(SentenceGlue, groups[i])| <= maxChars)
    && (forall i :: 0 < i < |groups| ==> |Join(SentenceGlue, groups[i - 1])| + |groups[i][0]| + 2 > maxChars)
  }

  function State(done: seq<seq<string>>, cur: seq<string>): seq<seq<string>> {
    if cur == [] then done else done + [cur]
  }

  lemma {:induction false} PackFromGreedy(ss: seq<string>, maxChars: int, done: seq<seq<string>>, cur: seq<string>)
    requires Greedy(State(done, cur), maxChars)
    requires cur == [] ==> done == []
    ensures Greedy(PackFrom(ss, maxChars, done, cur), maxChars)
    decreases |ss|
  {
    if ss != [] {
      var s := ss[0];
      if cur != [] && |Join(SentenceGlue, cur)| + |s| + 2 > maxChars {
        GreedyOpen(done, cur, s, maxChars);
        PackFromGreedy(ss[1..], maxChars, done + [cur], [s]);
      } else {
        GreedyExtend(done, cur, s, maxChars);
        PackFromGreedy(ss[1..], maxChars, done, cur + [s]);
      }
    }
  }

  lemma {:induction false} PackFromFlatten(ss: seq<string>, maxChars: int, done: seq<seq<string>>, cur: seq<string>)
    ensures Flatten(PackFrom(ss, maxChars, done, cur)) == Flatten(done) + cur + ss
    decreases |ss|
  {
    if ss == [] {
      if cur != [] {
        assert (done + [cur])[..|done|] == done;
      }
    } else {
      var s := ss[0];
      if cur != [] && |Join(SentenceGlue, cur)| + |s| + 2 > maxChars {
        PackFromFlatten(ss[1..], maxChars, done + [cur], [s]);
        assert (done + [cur])[..|done|] == done;
        assert [s] + ss[1..] == ss;
      } else {
        PackFromFlatten(ss[1..], maxChars, done, cur + [s]);
        assert cur + ss == (cur + [s]) + ss[1..];
      }
    }
  }

  /** Closing the current group and opening one with `s` keeps the packing
      greedy when `s` does not fit. */
  lemma GreedyOpen(done: seq<seq<string>>, cur: seq<string>, s: string, maxChars: int)
    requires cur != [] && Greedy(done + [cur], maxChars)
    requires |Join(SentenceGlue, cur)| + |s| + 2 > maxChars
    ensures Greedy(State(done + [cur], [s]), maxChars)
  {
    var g := done + [cur] + [[s]];
    assert State(done + [cur], [s]) == g;
    assert forall i :: 0 <= i <= |done| ==> g[i] == (done + [cur])[i];
  }

  /** Adding `s` to the current group keeps the packing greedy when the
      group is empty or `s` fits. */
  lemma GreedyExtend(done: seq<seq<string>>, cur: seq<string>, s: string, maxChars: int)
    requires Greedy(State(done, cur), maxChars)
    requires cur == [] ==> done == []
    requires cur != [] ==> |Join(SentenceGlue, cur)| + |s| + 2 <= maxChars
    ensures Greedy(State(done, cur + [s]), maxChars)
  {
    if cur != [] {
      JoinAppend(SentenceGlue, cur, [s]);
      GreedyReplaceLast(done, cur, cur + [s], maxChars);
    } else {
      assert cur + [s] == [s];
      assert State(done, cur + [s]) == [[s]];
    }
  }

  /** Replacing the last group by a fitting one with the same first sentence
      keeps the packing greedy. */
  lemma GreedyReplaceLast(done: seq<seq<string>>, cur: seq<string>, c: seq<string>, maxChars: int)
    requires cur != [] && c != [] && c[0] == cur[0]
    requires Greedy(done + [cur], maxChars)
    requires |Join(SentenceGlue, c)| <= maxChars
    ensures Greedy(done + [c], maxChars)
  {
    var g, h := done + [cur], done + [c];
    assert forall i :: 0 <= i < |done| ==> h[i] == g[i];
    assert h[|done|] == c;
    forall i | 0 < i < |h| ensures |Join(SentenceGlue, h[i - 1])| + |h[i][0]| + 2 > maxChars {
      assert h[i - 1] == g[i - 1] && h[i][0] == g[i][0];
    }
  }

  /** The packing is greedy and keeps every sentence, in order. */
  lemma PackIsGreedy(ss: seq<string>, maxChars: int)
    ensures Greedy(Pack(ss, maxChars), maxChars)
    ensures Flatten(Pack(ss, maxChars)) == ss
  {
    PackFromGreedy(ss, maxChars, [], []);
    PackFromFlatten(ss, maxChars, [], []);
  }

  /** Joining non-empty parts starts with the first part's first character and
      ends with the last part's last one. */
  lemma {:induction false} JoinEnds(sep: string, parts: seq<string>)
    requires parts != [] && forall i :: 0 <= i < |parts| ==> parts[i] != []
    ensures var j := Join(sep, parts);
      |j| > 0 && j[0] == parts[0][0] && j[|j| - 1] == parts[|parts| - 1][|parts[|parts| - 1]| - 1]
    decreases |parts|
  {
    if |parts| > 1 {
      JoinEnds(sep, parts[1..]);
    }
  }

  /** `_chunk_text_for_tiktok`: the sentences packed greedily, each chunk
      its sentences joined by ". " (its `strip()` changes nothing). */
  method ChunkText(text: string, maxChars: int) returns (chunks: seq<string>)
    ensures chunks == ChunkTexts(Pack(Sentences(text), maxChars))
  {
    var sentences := Sentences(text);
    chunks := [];
    var current := "";
    ghost var done: seq<seq<string>> := [];
    ghost var cur: seq<string> := [];
    for k := 0 to |sentences|
      invariant forall i :: 0 <= i < |cur| ==> IsSentence(cur[i])
      invariant current == Join(SentenceGlue, cur)
      invariant cur == [] <==> current == []
      invariant chunks == ChunkTexts(done)
      invariant PackFrom(sentences[k..], maxChars, done, cur) == Pack(sentences, maxChars)
    {
      PackFromStep(sentences, k, maxChars, done, cur);
      chunks, current, done, cur := AddSentence(chunks, current, sentences[k], maxChars, done, cur);
    }
    if current != [] {
      CloseChunk(done, cur);
      chunks := chunks + [Strip(current)];
      done := done + [cur];
    }
  }

  /** The body of the chunking loop: a sentence that would take the current
      chunk past `maxChars` closes it and starts the next; otherwise it is
      appended to the current chunk. */
  method AddSentence(chunks: seq<string>, current: string, s: string, maxChars: int, ghost done: seq<seq<string>>, ghost cur: seq<string>)
    returns (chunks': seq<string>, current': string, ghost done': seq<seq<string>>, ghost cur': seq<string>)
    requires IsSentence(s) && forall i :: 0 <= i < |cur| ==> IsSentence(cur[i])
    requires current == Join(SentenceGlue, cur) && (cur == [] <==> current == [])
    requires chunks == ChunkTexts(done)
    ensures if cur != [] && |Join(SentenceGlue, cur)| + |s| + 2 > maxChars
      then done' == done + [cur] && cur' == [s]
      else done' == done && cur' == cur + [s]
    ensures forall i :: 0 <= i < |cur'| ==> IsSentence(cur'[i])
    ensures current' == Join(SentenceGlue, cur') && cur' != [] && current' != []
    ensures chunks' == ChunkTexts(done')
  {
    if current != [] && |current| + |s| + 2 > maxChars {
      CloseChunk(done, cur);
      chunks' := chunks + [Strip(current)];
      done' := done + [cur];
      current' := s;
      cur' := [s];
    } else if current != [] {
      JoinAppend(SentenceGlue, cur, [s]);
      chunks', done' := chunks, done;
      current' := current + SentenceGlue + s;
      cur' := cur + [s];
    } else {
      assert cur + [s] == [s];
      chunks', done' := chunks, done;
      current' := s;
      cur' := [s];
    }
  }

  /** One sentence more of the packing: it closes the current group when it
      would not fit, and joins it otherwise. */
  lemma PackFromStep(ss: seq<string>, k: nat, maxChars: int, done: seq<seq<string>>, cur: seq<string>)
    requires k < |ss|
    ensures PackFrom(ss[k..], maxChars, done, cur)
      == if cur != [] && |Join(SentenceGlue, cur)| + |ss[k]| + 2 > maxChars
         then PackFrom(ss[k + 1..], maxChars, done + [cur], [ss[k]])
         else PackFrom(ss[k + 1..], maxChars, done, cur + [ss[k]])
  {
    assert ss[k..][1..] == ss[k + 1..] && ss[k..][0] == ss[k];
  }

  /** Closing a group of sentences adds its joined text, which stripping
      leaves unchanged. */
  lemma CloseChunk(done: seq<seq<string>>, cur: seq<string>)
    requires cur != [] && forall i :: 0 <= i < |cur| ==> IsSentence(cur[i])
    ensures ChunkTexts(done + [cur]) == ChunkTexts(done) + [Strip(Join(SentenceGlue, cur))]
  {
    JoinEnds(SentenceGlue, cur);
    StripNoop(Join(SentenceGlue, cur));
    assert (done + [cur])[..|done|] == done;
  }

  /** What the chunker promises: every chunk is non-empty, a chunk of two or
      more sentences fits in `maxChars` (a single over-long sentence is kept
      whole), the chunks hold all the sentences in order, and a chunk is
      closed only when the next sentence would not fit. */
  lemma ChunkTextMeaning(text: string, maxChars: int)
    ensures var groups := Pack(Sentences(text), maxChars); var chunks := ChunkTexts(groups);
      && Flatten(groups) == Sentences(text)
      && Greedy(groups, maxChars)
      && (forall i :: 0 <= i < |chunks| ==> chunks[i] != [] && chunks[i] == Join(SentenceGlue, groups[i]))
      && (forall i :: 0 <= i < |chunks| && |groups[i]| >= 2 ==> |chunks[i]| <= maxChars)
  {
    var groups := Pack(Sentences(text), maxChars);
    PackIsGreedy(Sentences(text), maxChars);
    forall i | 0 <= i < |groups| ensures Join(SentenceGlue, groups[i]) != [] {
      FlattenMember(groups, i);
      JoinEnds(SentenceGlue, groups[i]);
    }
  }

  /** Each group of a flattening holds only elements of the flattening. */
  lemma {:induction false} FlattenMember(groups: seq<seq<string>>, i: nat)
    requires i < |groups|
    ensures forall j :: 0 <= j < |groups[i]| ==> groups[i][j] in Flatten(groups)
    decreases |groups|
  {
    var last := |groups| - 1;
    assert Flatten(groups) == Flatten(groups[..last]) + groups[last];
    if i < last {
      FlattenMember(groups[..last], i);
    }
  }

  // ---------------------------------------------------------------------------
  // The MP3 sanity check

  const NotCreated := "Synthesized output file was not created"
  const NotMp3 := "Synthesized output does not look like an MP3 file"
  const MinimumSize := 256

  function TooSmall(size: nat): string {
    "Synthesized output file too small (" + NatToString(size) + " bytes)"
  }

  /** The three bytes of an ID3v2 tag header. */
  const Id3: seq<bv8> := [0x49, 0x44, 0x33]

  /** An ID3v2 tag, or an MPEG audio frame-sync word (eleven set bits). */
  predicate LooksLikeMp3(head: seq<bv8>) {
    (|head| >= 3 && head[..3] == Id3) || (|head| >= 2 && head[0] == 0xFF && head[1] & 0xE0 == 0xE0)
  }

  /** `_basic_mp3_sanity_check` on the file's bytes (`None`: no such file). */
  function Mp3SanityCheck(file: Option<seq<bv8>>): Result<()> {
    if file.None? then Err(RuntimeError(NotCreated))
    else if |file.value| < MinimumSize then Err(RuntimeError(TooSmall(|file.value|)))
    else if LooksLikeMp3(file.value[..4]) then Ok(())
    else Err(RuntimeError(NotMp3))
  }

  /** The frame-sync test on the second byte asks for its top three bits. */
  lemma FrameSyncBits(b: bv8)
    ensures (b & 0xE0 == 0xE0) <==> b >= 0xE0
  {
  }

  /** The check passes exactly for a file of at least 256 bytes that starts
      with "ID3" or with 0xFF and a byte of at least 0xE0; otherwise it names
      the reason. */
  lemma Mp3SanityCheckMeaning(file: Option<seq<bv8>>)
    ensures Mp3SanityCheck(file).Ok? <==>
      && file.Some? && |file.value| >= 256
      && (file.value[..3] == Id3 || (file.value[0] == 0xFF && file.value[1] >= 0xE0))
    ensures file.None? ==> Mp3SanityCheck(file) == Err(RuntimeError(NotCreated))
    ensures file.Some? && |file.value| < 256 ==> Mp3SanityCheck(file) == Err(RuntimeError(TooSmall(|file.value|)))
  {
    if file.Some? && |file.value| >= 256 {
      var head := file.value[..4];
      FrameSyncBits(head[1]);
      assert head[..3] == file.value[..3];
    }
  }

  // ---------------------------------------------------------------------------
  // The endpoint list

  const DefaultEndpoints: seq<string> := [
    "https://api16-normal-c-useast1a.tiktokv.com/media/api/text/speech/invoke/",
    "https://api16-normal-c-alisg.tiktokv.com/media/api/text/speech/invoke/",
    "https://tiktok-tts.weilnet.workers.dev/api/generation",
    "https://tiktoktts.com/api/generation"
  ]

  /** `[e.strip() for e in entries if e.strip()]`. */
  function CleanEntries(entries: seq<string>): (r: seq<string>)
    ensures forall i :: 0 <= i < |r| ==> r[i] != [] && Strip(r[i]) == r[i]
  {
    if entries == [] then []
    else
      var e := Strip(entries[0]);
      if e != [] then StripNoop(e); [e] + CleanEntries(entries[1..]) else CleanEntries(entries[1..])
  }

  /** The usable entries of `TIKTOK_TTS_ENDPOINTS`: the trimmed non-empty
      comma-separated pieces of the trimmed value (none when it is unset or
      blank). */
  function ConfiguredEndpoints(env: Option<string>): (r: seq<string>)
    ensures forall i :: 0 <= i < |r| ==> r[i] != [] && Strip(r[i]) == r[i]
  {
    var configured := Strip(if env.Some? then env.value else []);
    if configured != [] then CleanEntries(SplitOn(configured, ',')) else []
  }

  /** `_get_tiktok_tts_endpoints`: the configured entries, or the four
      defaults when there are none. */
  function Endpoints(env: Option<string>): (r: seq<string>)
    ensures r != []
  {
    var configured := ConfiguredEndpoints(env);
    if configured != [] then configured else DefaultEndpoints
  }

  /** An unset or blank variable configures nothing, and a configured entry
      holds no comma. */
  lemma ConfiguredEndpointsMeaning(env: Option<string>)
    ensures env.None? || Strip(env.value) == [] ==> ConfiguredEndpoints(env) == []
    ensures forall i :: 0 <= i < |ConfiguredEndpoints(env)| ==> ',' !in ConfiguredEndpoints(env)[i]
  {
    var configured := Strip(if env.Some? then env.value else []);
    if configured != [] {
      CleanEntriesKeepsNoComma(SplitOn(configured, ','));
    }
  }

  lemma {:induction false} CleanEntriesKeepsNoComma(entries: seq<string>)
    requires forall i :: 0 <= i < |entries| ==> ',' !in entries[i]
    ensures forall i :: 0 <= i < |CleanEntries(entries)| ==> ',' !in CleanEntries(entries)[i]
    decreases |entries|
  {
    if entries != [] {
      CleanEntriesKeepsNoComma(entries[1..]);
      var e := entries[0];
      var s := Strip(e);
      var l := LeadingSpaces(e);
      assert s == e[l..l + |s|];
    }
  }

  /** A comma-separated list of trimmed, non-empty, comma-free entries reads
      back as itself. */
  lemma EndpointsOfList(urls: seq<string>)
    requires urls != []
    requires forall i :: 0 <= i < |urls| ==> urls[i] != [] && Strip(urls[i]) == urls[i] && ',' !in urls[i]
    ensures ConfiguredEndpoints(Some(Join(",", urls))) == urls
  {
    JoinOfStripped(",", urls);
    assert "," == [','];
    SplitOnJoin(urls, ',');
    CleanEntriesOfClean(urls);
  }

  lemma JoinOfStripped(sep: string, urls: seq<string>)
    requires urls != []
    requires forall i :: 0 <= i < |urls| ==> urls[i] != [] && Strip(urls[i]) == urls[i]
    ensures Strip(Join(sep, urls)) == Join(sep, urls)
  {
    StrippedEnds(urls[0]);
    StrippedEnds(urls[|urls| - 1]);
    JoinOfSpacelessEnds(sep, urls);
  }

  lemma StrippedEnds(s: string)
    requires s != [] && Strip(s) == s
    ensures !IsSpace(s[0]) && !IsSpace(s[|s| - 1])
  {
  }

  /** Non-empty parts whose outer ends are not whitespace join into a string
      that is its own strip. */
  lemma JoinOfSpacelessEnds(sep: string, parts: seq<string>)
    requires parts != [] && forall i :: 0 <= i < |parts| ==> parts[i] != []
    requires !IsSpace(parts[0][0]) && !IsSpace(parts[|parts| - 1][|parts[|parts| - 1]| - 1])
    ensures Strip(Join(sep, parts)) == Join(sep, parts)
  {
    JoinEnds(sep, parts);
    StripNoop(Join(sep, parts));
  }

  lemma {:induction false} CleanEntriesOfClean(entries: seq<string>)
    requires forall i :: 0 <= i < |entries| ==> entries[i] != [] && Strip(entries[i]) == entries[i]
    ensures CleanEntries(entries) == entries
    decreases |entries|
  {
    if entries != [] {
      CleanEntriesOfClean(entries[1..]);
      assert [entries[0]] + entries[1..] == entries;
    }
  }

  // ---------------------------------------------------------------------------
  // Synthesizing one chunk

  /** What a request to an endpoint produced: the decoded audio written to
      the output file, or the message of the exception raised on the way
      (HTTP error, API error, missing audio). */
  datatype Fetch = Fetched(audio: seq<bv8>) | Raised(message: string)

  datatype EndpointKind = TikTokApi | WorkerApi | CommunityApi | Unsupported

  /** Python `pat in s`. */
  predicate HasInfix(s: string, pat: string)
    decreases |s|
  {
    (|pat| <= |s| && s[..|pat|] == pat) || (s != [] && HasInfix(s[1..], pat))
  }

  /** The protocol an endpoint speaks, by the host named in its URL. */
  function Kind(url: string): EndpointKind {
    if HasInfix(url, "tiktokv.com") then TikTokApi
    else if HasInfix(url, "weilnet.workers.dev") then WorkerApi
    else if HasInfix(url, "tiktoktts.com") then CommunityApi
    else Unsupported
  }

  const UnsupportedEndpoint := "Unsupported endpoint"
  const SynthesisFailed := "Failed to synthesize TTS via TikTok endpoint(s): "

  /** One pass of the `try` block: an unsupported URL raises, a request that
      raised passes its message on, and written audio must pass the sanity
      check. */
  function Attempt(url: string, fetch: Fetch): Result<seq<bv8>> {
    if Kind(url) == Unsupported then Err(RuntimeError(UnsupportedEndpoint))
    else match fetch
      case Raised(m) => Err(RuntimeError(m))
      case Fetched(a) => if Mp3SanityCheck(Some(a)).Ok? then Ok(a) else Err(Mp3SanityCheck(Some(a)).error)
  }

  /** Python `str(exc)`. */
  function Message(e: Failure): string {
    match e
    case ValueError(m) => m
    case RuntimeError(m) => m
    case ZeroDivisionError => "division by zero"
  }

  function ErrorLine(url: string, e: Failure): string { url + ": " + Message(e) }

  /** The error lines of the attempts that failed, in order. */
  function FailureLines(urls: seq<string>, fetches: seq<Fetch>): seq<string>
    requires |urls| == |fetches|
  {
    if urls == [] then []
    else
      var n := |urls| - 1;
      var a := Attempt(urls[n], fetches[n]);
      FailureLines(urls[..n], fetches[..n]) + (if a.Err? then [ErrorLine(urls[n], a.error)] else [])
  }

  /** Python `errors[-4:]`. */
  function LastFour(errors: seq<string>): seq<string> {
    if |errors| <= 4 then errors else errors[|errors| - 4..]
  }

  /** The error details: the last four error lines joined by "; ", or the
      last exception (`None` when nothing was tried). */
  function Details(errors: seq<string>): string {
    if errors == [] then "None" else Join("; ", LastFour(errors))
  }

  /** `_synthesize_single_chunk` for the endpoint list `urls` (which the
      source reads through `Endpoints`) and one outcome per endpoint: the
      endpoints are tried in order and the audio of the first one that
      succeeds is returned; when all fail, the error carries the last four
      failure lines. */
  method SynthesizeSingleChunk(urls: seq<string>, fetches: seq<Fetch>) returns (r: Result<seq<bv8>>)
    requires |fetches| == |urls|
    ensures r.Ok? ==>
      exists i :: 0 <= i < |urls| && Attempt(urls[i], fetches[i]) == Ok(r.value)
        && forall j :: 0 <= j < i ==> Attempt(urls[j], fetches[j]).Err?
    ensures r.Err? ==>
      && (forall i :: 0 <= i < |urls| ==> Attempt(urls[i], fetches[i]).Err?)
      && r.error == RuntimeError(SynthesisFailed + Details(FailureLines(urls, fetches)))
  {
    var errors: seq<string> := [];
    var i := 0;
    while i < |urls|
      invariant 0 <= i <= |urls|
      invariant forall j :: 0 <= j < i ==> Attempt(urls[j], fetches[j]).Err?
      invariant errors == FailureLines(urls[..i], fetches[..i])
    {
      var outcome := Attempt(urls[i], fetches[i]);
      if outcome.Ok? {
        return Ok(outcome.value);
      }
      FailureLinesSnoc(urls, fetches, i);
      AllFailExtend(urls, fetches, i);
      errors := errors + [ErrorLine(urls[i], outcome.error)];
      i := i + 1;
    }
    assert urls[..i] == urls && fetches[..i] == fetches;
    r := Err(RuntimeError(SynthesisFailed + Details(errors)));
  }

  lemma AllFailExtend(urls: seq<string>, fetches: seq<Fetch>, i: nat)
    requires |urls| == |fetches| && i < |urls|
    requires forall j :: 0 <= j < i ==> Attempt(urls[j], fetches[j]).Err?
    requires Attempt(urls[i], fetches[i]).Err?
    ensures forall j :: 0 <= j < i + 1 ==> Attempt(urls[j], fetches[j]).Err?
  {
  }

  /** Going one endpoint further adds its failure line, if it failed. */
  lemma FailureLinesSnoc(urls: seq<string>, fetches: seq<Fetch>, i: nat)
    requires |urls| == |fetches| && i < |urls|
    ensures var a := Attempt(urls[i], fetches[i]);
      FailureLines(urls[..i + 1], fetches[..i + 1])
        == FailureLines(urls[..i], fetches[..i]) + (if a.Err? then [ErrorLine(urls[i], a.error)] else [])
  {
    assert urls[..i + 1][..i] == urls[..i] && fetches[..i + 1][..i] == fetches[..i];
  }

  /** When every attempt fails, there is one failure line per endpoint, in
      endpoint order. */
  lemma FailureLinesAllFail(urls: seq<string>, fetches: seq<Fetch>)
    requires |urls| == |fetches|
    requires forall i :: 0 <= i < |urls| ==> Attempt(urls[i], fetches[i]).Err?
    ensures |FailureLines(urls, fetches)| == |urls|
    ensures forall i :: 0 <= i < |urls| ==> FailureLines(urls, fetches)[i] == ErrorLine(urls[i], Attempt(urls[i], fetches[i]).error)
  {
    FailureLinesCount(urls, fetches);
    forall i | 0 <= i < |urls|
      ensures FailureLines(urls, fetches)[i] == ErrorLine(urls[i], Attempt(urls[i], fetches[i]).error)
    {
      FailureLineAt(urls, fetches, i);
    }
  }

  lemma {:induction false} FailureLinesCount(urls: seq<string>, fetches: seq<Fetch>)
    requires |urls| == |fetches|
    requires forall i :: 0 <= i < |urls| ==> Attempt(urls[i], fetches[i]).Err?
    ensures |FailureLines(urls, fetches)| == |urls|
    decreases |urls|
  {
    if urls != [] {
      var n := |urls| - 1;
      FailureLinesCount(urls[..n], fetches[..n]);
    }
  }

  /** The `i`-th failure line, when every attempt fails, is that of
      endpoint `i`. */
  lemma {:induction false} FailureLineAt(urls: seq<string>, fetches: seq<Fetch>, i: nat)
    requires |urls| == |fetches| && i < |urls|
    requires forall j :: 0 <= j < |urls| ==> Attempt(urls[j], fetches[j]).Err?
    ensures |FailureLines(urls, fetches)| == |urls|
    ensures FailureLines(urls, fetches)[i] == ErrorLine(urls[i], Attempt(urls[i], fetches[i]).error)
    decreases |urls|
  {
    FailureLinesCount(urls, fetches);
    var n := |urls| - 1;
    var prefix := FailureLines(urls[..n], fetches[..n]);
    var line := ErrorLine(urls[n], Attempt(urls[n], fetches[n]).error);
    FailureLinesCount(urls[..n], fetches[..n]);
    assert FailureLines(urls, fetches) == prefix + [line];
    if i < n {
      FailureLineAt(urls[..n], fetches[..n], i);
      assert urls[..n][i] == urls[i] && fetches[..n][i] == fetches[i];
      assert (prefix + [line])[i] == prefix[i];
    } else {
      assert (prefix + [line])[i] == line;
    }
  }


  // ---------------------------------------------------------------------------
  // Synthesizing a text

  const EmptyText := "Text must not be empty"
  const NoClips := "No audio clips to concatenate"
  const MaxChunk := 200

  /** A call of `_synthesize_single_chunk`: the text and the file suffix. */
  datatype Request = Request(text: string, suffix: string)

  function ChunkSuffix(i: nat): string { "_chunk" + NatToString(i) }

  function ChunkRequests(chunks: seq<string>): (r: seq<Request>)
    ensures |r| == |chunks|
    ensures forall i :: 0 <= i < |r| ==> r[i] == Request(chunks[i], ChunkSuffix(i))
  {
    seq(|chunks|, i requires 0 <= i < |chunks| => Request(chunks[i], ChunkSuffix(i)))
  }

  /** `synthesize_tiktok_tts` for a single-chunk synthesizer `synth`: the
      requests made, in order; the audio parts concatenated into the result,
      in order; and the chunk files deleted afterwards. Empty text is
      rejected; text of at most 200 characters is one request with no
      suffix; longer text goes through `SynthesizeChunks`. */
  method SynthesizeTikTokTts(text: string, synth: Request -> Result<seq<bv8>>)
    returns (r: Result<seq<seq<bv8>>>, requests: seq<Request>, deleted: seq<Request>)
    ensures text == [] ==> r == Err(ValueError(EmptyText)) && requests == [] && deleted == []
    ensures 0 < |text| <= MaxChunk ==>
      && requests == [Request(text, "")] && deleted == []
      && r == (if synth(Request(text, "")).Ok? then Ok([synth(Request(text, "")).value]) else Err(synth(Request(text, "")).error))
    ensures |text| > MaxChunk ==> ChunkedOutcome(ChunkTexts(Pack(Sentences(text), MaxChunk)), synth, r, requests, deleted)
  {
    if text == [] {
      return Err(ValueError(EmptyText)), [], [];
    }
    if |text| <= MaxChunk {
      requests := [Request(text, "")];
      var a := synth(Request(text, ""));
      if a.Err? {
        return Err(a.error), requests, [];
      }
      return Ok([a.value]), requests, [];
    }
    var chunks := ChunkText(text, MaxChunk);
    r, requests, deleted := SynthesizeChunks(chunks, synth);
  }

  /** The chunked path: the requests made are a prefix of one request per
      chunk in order, all but the last of them succeeded; on success every
      chunk was synthesized, the parts are the chunks' audio in order and
      every chunk file is deleted; on failure nothing is deleted and the
      error is the failing request's, or the concatenation's when there were
      no chunks at all. */
  predicate ChunkedOutcome(chunks: seq<string>, synth: Request -> Result<seq<bv8>>,
                           r: Result<seq<seq<bv8>>>, requests: seq<Request>, deleted: seq<Request>)
  {
    var all := ChunkRequests(chunks);
    && |requests| <= |all| && requests == all[..|requests|]
    && (forall j :: 0 <= j < |requests| - 1 ==> synth(requests[j]).Ok?)
    && (r.Ok? ==> && requests == all && all != [] && deleted == all
                  && |r.value| == |all| && forall j :: 0 <= j < |all| ==> synth(all[j]) == Ok(r.value[j]))
    && (r.Err? ==> && deleted == []
                   && if all == [] then r.error == RuntimeError(NoClips)
                      else requests != [] && synth(requests[|requests| - 1]).Err?
                           && r == Err(synth(requests[|requests| - 1]).error))
  }

  /** The loop over the chunks, the concatenation's empty-input check and the
      clean-up of the chunk files. */
  method SynthesizeChunks(chunks: seq<string>, synth: Request -> Result<seq<bv8>>)
    returns (r: Result<seq<seq<bv8>>>, requests: seq<Request>, deleted: seq<Request>)
    ensures ChunkedOutcome(chunks, synth, r, requests, deleted)
  {
    ghost var all := ChunkRequests(chunks);
    var parts: seq<seq<bv8>> := [];
    requests := [];
    for i := 0 to |chunks|
      invariant |requests| == |parts| == i
      invariant requests == all[..i]
      invariant forall j :: 0 <= j < i ==> synth(requests[j]) == Ok(parts[j])
    {
      var request := Request(chunks[i], ChunkSuffix(i));
      requests := requests + [request];
      var a := synth(request);
      if a.Err? {
        return Err(a.error), requests, [];
      }
      parts := parts + [a.value];
    }
    if parts == [] {
      return Err(RuntimeError(NoClips)), requests, [];
    }
    deleted := requests;
    r := Ok(parts);
  }
}
