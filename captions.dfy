/** Caption timing (app/captions.py): sentence-level caption spans laid out by
    word count, per-word karaoke spans weighted by token length, and the
    count-threshold alignment of a transcription back onto the original text. */
module Captions {
  import opened Common
  import opened Text

  /** A timed sentence/phrase caption. */
  datatype CaptionSpan = CaptionSpan(start: real, end: real, text: string)

  /** A timed single-word karaoke entry; `index` is its position in the list. */
  datatype WordSpan = WordSpan(start: real, end: real, text: string, index: nat)

  /** One word of a speech-recognition transcription. */
  datatype TimedWord = TimedWord(start: real, end: real, word: string)

  const MissingDuration := "Must provide total_duration_s or audio_path"

  /** The duration an allocator works with: the explicit one, else the one the
      duration estimator reports for the audio file (`estimated`), else an error. */
  function ResolveDuration(total: Option<real>, audioPath: Option<string>, estimated: real): (r: Result<real>)
    ensures r.Err? <==> total.None? && audioPath.None?
    ensures r.Err? ==> r.error == ValueError(MissingDuration)
    ensures total.Some? ==> r == Ok(total.value)
    ensures total.None? && audioPath.Some? ==> r == Ok(estimated)
  {
    if total.Some? then Ok(total.value)
    else if audioPath.None? then Err(ValueError(MissingDuration))
    else Ok(estimated)
  }

  // ---------------------------------------------------------------------------
  // Word grouping

  /** Greedy grouping: five words at a time until at most seven remain, which
      then form the last group. */
  function Groups(words: seq<string>): seq<seq<string>>
    decreases |words|
  {
    if words == [] then []
    else if |words| <= 7 then [words]
    else [words[..5]] + Groups(words[5..])
  }

  function Flatten(groups: seq<seq<string>>): seq<string> {
    if groups == [] then [] else groups[0] + Flatten(groups[1..])
  }

  /** Number of words in the first `i` groups. */
  function WordsBefore(groups: seq<seq<string>>, i: nat): nat
    requires i <= |groups|
  {
    if i == 0 then 0 else WordsBefore(groups, i - 1) + |groups[i - 1]|
  }

  /** The grouping loses and reorders nothing; every group but the last has five
      words; the last has one to seven, and at least three when there were more
      than seven words. */
  lemma {:induction false} GroupsShape(words: seq<string>)
    requires words != []
    ensures var g := Groups(words);
      && g != []
      && Flatten(g) == words
      && (forall i :: 0 <= i < |g| - 1 ==> |g[i]| == 5)
      && 1 <= |g[|g| - 1]| <= 7
      && (|words| > 7 ==> |g[|g| - 1]| >= 3)
      && WordsBefore(g, |g|) == |words|
  {
    if |words| <= 7 {
      GroupsShapeShort(words);
    } else {
      var g := Groups(words);
      var rest := Groups(words[5..]);
      GroupsShape(words[5..]);
      assert g == [words[..5]] + rest;
      assert g[1..] == rest;
      assert forall i :: 1 <= i < |g| ==> g[i] == rest[i - 1];
      assert g[|g| - 1] == rest[|rest| - 1];
      assert Flatten(g) == words[..5] + Flatten(rest);
      assert words[..5] + words[5..] == words;
      WordsBeforeCons(words[..5], rest, |rest|);
    }
  }

  /** Seven words or fewer make one group. */
  lemma GroupsShapeShort(words: seq<string>)
    requires words != [] && |words| <= 7
    ensures Groups(words) == [words]
    ensures Flatten(Groups(words)) == words
    ensures WordsBefore(Groups(words), 1) == |words|
  {
    var g := Groups(words);
    assert g == [words];
    assert Flatten(g) == words + Flatten([]);
    assert WordsBefore(g, 1) == WordsBefore(g, 0) + |words|;
  }

  lemma {:induction false} WordsBeforeCons(g0: seq<string>, rest: seq<seq<string>>, i: nat)
    requires i <= |rest|
    ensures WordsBefore([g0] + rest, i + 1) == |g0| + WordsBefore(rest, i)
  {
    var g := [g0] + rest;
    if i == 0 {
      assert WordsBefore(g, 1) == WordsBefore(g, 0) + |g[0]|;
    } else {
      WordsBeforeCons(g0, rest, i - 1);
      assert g[i] == rest[i - 1];
    }
  }

  // ---------------------------------------------------------------------------
  // Caption spans

  /** Python `math.isclose(a, b, abs_tol=1e-3)` with its default relative
      tolerance of 1e-9, on exact reals. */
  predicate IsClose(a: real, b: real) {
    Abs(a - b) <= Max(0.000000001 * Max(Abs(a), Abs(b)), 0.001)
  }

  /** Time taken by `k` words when each word lasts `perWord`. */
  function WordsTime(perWord: real, k: nat): real {
    if k == 0 then 0.0 else WordsTime(perWord, k - 1) + perWord
  }

  /** `WordsTime` is the product `per_word * len(g)` of the source, written
      as repeated addition so that the layout proofs stay linear. */
  lemma {:induction false} WordsTimeIsProduct(perWord: real, k: nat)
    ensures WordsTime(perWord, k) == perWord * (k as real)
  {
    if k > 0 {
      WordsTimeIsProduct(perWord, k - 1);
      assert perWord * ((k - 1) as real) + perWord == perWord * (k as real);
    }
  }

  /** Contiguous layout from `t`: each group lasts `perWord` per word, its end
      capped at `total`, and the next group starts where it ended. */
  function LayOut(groups: seq<seq<string>>, perWord: real, total: real, t: real): (spans: seq<CaptionSpan>)
    ensures |spans| == |groups|
  {
    if groups == [] then []
    else
      var end := Min(total, t + WordsTime(perWord, |groups[0]|));
      [CaptionSpan(t, end, Join(" ", groups[0]))] + LayOut(groups[1..], perWord, total, end)
  }

  function PinLastEnd(spans: seq<CaptionSpan>, total: real): seq<CaptionSpan> {
    if spans == [] then [] else spans[|spans| - 1 := spans[|spans| - 1].(end := total)]
  }

  /** A span whose end is close to its start is stretched to 0.05 s. */
  function Nudge(s: CaptionSpan): CaptionSpan {
    if IsClose(s.end, s.start) then s.(end := s.start + 0.05) else s
  }

  /** The spans before the zero-length nudge: laid out and pinned to `total`. */
  function CaptionLayout(words: seq<string>, total: real): seq<CaptionSpan>
    requires words != []
  {
    PinLastEnd(LayOut(Groups(words), total / (|words| as real), total, 0.0), total)
  }

  /** The caption spans `allocate_caption_spans` returns for a word list. */
  function CaptionTimeline(words: seq<string>, total: real): seq<CaptionSpan> {
    if words == [] then [CaptionSpan(0.0, total, [])]
    else
      NudgeAll(CaptionLayout(words, total))
  }

  function NudgeAll(laid: seq<CaptionSpan>): seq<CaptionSpan> {
    seq(|laid|, i requires 0 <= i < |laid| => Nudge(laid[i]))
  }

  function AllocateCaptionSpansSpec(text: string, total: Option<real>, audioPath: Option<string>, estimated: real): Result<seq<CaptionSpan>> {
    match ResolveDuration(total, audioPath, estimated)
    case Err(e) => Err(e)
    case Ok(d) => Ok(CaptionTimeline(Words(text), d))
  }

  /** `allocate_caption_spans`: group the words, lay the groups out contiguously,
      pin the last end to the duration, then nudge near-zero spans. */
  method AllocateCaptionSpans(text: string, totalDuration: Option<real>, audioPath: Option<string>, estimated: real)
    returns (r: Result<seq<CaptionSpan>>)
    ensures r == AllocateCaptionSpansSpec(text, totalDuration, audioPath, estimated)
  {
    var total: real;
    if totalDuration.None? {
      if audioPath.None? {
        return Err(ValueError(MissingDuration));
      }
      total := estimated;
    } else {
      total := totalDuration.value;
    }

    var words := Words(text);
    if words == [] {
      return Ok([CaptionSpan(0.0, total, [])]);
    }

    var groups := GroupWords(words);
    var perWord := total / (|words| as real);
    var laid := LayOutGroups(groups, perWord, total);
    if laid != [] {
      laid := laid[|laid| - 1 := laid[|laid| - 1].(end := total)];
    }
    assert laid == CaptionLayout(words, total);
    var spans := NudgeShortSpans(laid);
    assert spans == CaptionTimeline(words, total);
    return Ok(spans);
  }

  /** The grouping loop of `allocate_caption_spans`. */
  method GroupWords(words: seq<string>) returns (groups: seq<seq<string>>)
    ensures groups == Groups(words)
  {
    groups := [];
    var idx := 0;
    while idx < |words|
      invariant 0 <= idx <= |words|
      invariant groups + Groups(words[idx..]) == Groups(words)
    {
      var groupSize := 5;
      var remaining := |words| - idx;
      if remaining <= 7 {
        groupSize := remaining;
      }
      var rest := words[idx..];
      assert rest[..groupSize] == words[idx..idx + groupSize];
      assert rest[groupSize..] == words[idx + groupSize..];
      if remaining <= 7 {
        assert Groups(rest) == [rest];
        assert words[idx + groupSize..] == [];
        assert Groups(words[idx + groupSize..]) == [];
        assert rest == words[idx..idx + groupSize];
      } else {
        assert Groups(rest) == [rest[..5]] + Groups(rest[5..]);
      }
      assert Groups(rest) == [words[idx..idx + groupSize]] + Groups(words[idx + groupSize..]);
      groups := groups + [words[idx..idx + groupSize]];
      idx := idx + groupSize;
    }
    assert words[|words|..] == [];
  }

  /** The layout loop of `allocate_caption_spans`: a time cursor advances by
      each group's share, capped at the duration. */
  method LayOutGroups(groups: seq<seq<string>>, perWord: real, total: real) returns (spans: seq<CaptionSpan>)
    ensures spans == LayOut(groups, perWord, total, 0.0)
  {
    spans := [];
    var t := 0.0;
    for k := 0 to |groups|
      invariant spans + LayOut(groups[k..], perWord, total, t) == LayOut(groups, perWord, total, 0.0)
    {
      var g := groups[k];
      var dur := WordsTime(perWord, |g|);
      var start := t;
      var end := Min(total, start + dur);
      var span := CaptionSpan(start, end, Join(" ", g));
      ghost var later := LayOut(groups[k + 1..], perWord, total, end);
      assert groups[k..][1..] == groups[k + 1..] && groups[k..][0] == g;
      LayOutCons(groups[k..], perWord, total, t);
      assert LayOut(groups[k..], perWord, total, t) == [span] + later;
      AppendAssoc(spans, [span], later);
      spans := spans + [span];
      t := end;
    }
    assert groups[|groups|..] == [];
  }

  lemma LayOutCons(groups: seq<seq<string>>, perWord: real, total: real, t: real)
    requires groups != []
    ensures var end := Min(total, t + WordsTime(perWord, |groups[0]|));
      LayOut(groups, perWord, total, t) == [CaptionSpan(t, end, Join(" ", groups[0]))] + LayOut(groups[1..], perWord, total, end)
  {
  }

  /** The zero-length guard of `allocate_caption_spans`, applied in place. */
  method NudgeShortSpans(laid: seq<CaptionSpan>) returns (spans: seq<CaptionSpan>)
    ensures |spans| == |laid|
    ensures forall i :: 0 <= i < |laid| ==> spans[i] == Nudge(laid[i])
  {
    spans := laid;
    for k := 0 to |spans|
      invariant |spans| == |laid|
      invariant forall i :: 0 <= i < k ==> spans[i] == Nudge(laid[i])
      invariant forall i :: k <= i < |spans| ==> spans[i] == laid[i]
    {
      if IsClose(spans[k].end, spans[k].start) {
        spans := spans[k := spans[k].(end := spans[k].start + 0.05)];
      }
    }
  }


  /** The layout with no cap: group `i` of the word list runs from
      `WordsTime(perWord, before(i))` to `WordsTime(perWord, before(i + 1))`. */
  function ExactLayOut(groups: seq<seq<string>>, perWord: real, b: nat): seq<CaptionSpan> {
    if groups == [] then []
    else
      [CaptionSpan(WordsTime(perWord, b), WordsTime(perWord, b + |groups[0]|), Join(" ", groups[0]))]
        + ExactLayOut(groups[1..], perWord, b + |groups[0]|)
  }

  /** With a non-negative per-word time whose total fits the duration, the cap
      never bites: the layout is the exact word-proportional one. */
  lemma {:induction false} LayOutIsExact(groups: seq<seq<string>>, perWord: real, total: real, b: nat, n: nat)
    requires perWord >= 0.0 && WordsTime(perWord, n) <= total
    requires b + |Flatten(groups)| <= n
    ensures LayOut(groups, perWord, total, WordsTime(perWord, b)) == ExactLayOut(groups, perWord, b)
    decreases |groups|
  {
    if groups != [] {
      var b' := b + |groups[0]|;
      MulMono(perWord, b', n);
      MulAdd(perWord, b, |groups[0]|);
      assert Min(total, WordsTime(perWord, b) + WordsTime(perWord, |groups[0]|)) == WordsTime(perWord, b');
      LayOutIsExact(groups[1..], perWord, total, b', n);
    }
  }

  lemma {:induction false} MulAdd(x: real, a: nat, k: nat)
    ensures WordsTime(x, a) + WordsTime(x, k) == WordsTime(x, a + k)
  {
    if k > 0 {
      MulAdd(x, a, k - 1);
    }
  }

  /** Entry `i` of the exact layout, by position. */
  lemma {:induction false} ExactLayOutWordsTime(groups: seq<seq<string>>, perWord: real, b: nat, i: nat)
    requires i < |groups|
    ensures |ExactLayOut(groups, perWord, b)| == |groups|
    ensures ExactLayOut(groups, perWord, b)[i] ==
      CaptionSpan(WordsTime(perWord, b + WordsBefore(groups, i)), WordsTime(perWord, b + WordsBefore(groups, i + 1)),
                  Join(" ", groups[i]))
    decreases i
  {
    ExactLayOutLength(groups, perWord, b);
    if i > 0 {
      var rest := groups[1..];
      assert groups == [groups[0]] + rest;
      ExactLayOutWordsTime(rest, perWord, b + |groups[0]|, i - 1);
      WordsBeforeCons(groups[0], rest, i - 1);
      WordsBeforeCons(groups[0], rest, i);
      assert ExactLayOut(groups, perWord, b)[i] == ExactLayOut(rest, perWord, b + |groups[0]|)[i - 1];
    } else {
      assert WordsBefore(groups, 1) == |groups[0]|;
    }
  }

  lemma {:induction false} ExactLayOutLength(groups: seq<seq<string>>, perWord: real, b: nat)
    ensures |ExactLayOut(groups, perWord, b)| == |groups|
    decreases |groups|
  {
    if groups != [] { ExactLayOutLength(groups[1..], perWord, b + |groups[0]|); }
  }

  lemma {:induction false} MulMono(x: real, a: nat, b: nat)
    requires x >= 0.0 && a <= b
    ensures WordsTime(x, a) <= WordsTime(x, b)
    decreases b - a
  {
    if a < b {
      MulMono(x, a, b - 1);
    }
  }

  /** Caption layout (before the nudge), for non-empty text and a non-negative
      duration: one span per word group, in order, each carrying its group's
      words joined by single spaces; the first starts at 0; each starts where
      the previous ended; each ends within the duration; the last ends exactly
      at the duration; and each group starts at its word-proportional position
      (the duration divided by the word count, times the words before it). */
  lemma CaptionLayoutCoverage(words: seq<string>, total: real)
    requires words != [] && total >= 0.0
    ensures var g := Groups(words); var s := CaptionLayout(words, total);
      && |s| == |g|
      && (forall i :: 0 <= i < |s| ==> s[i].text == Join(" ", g[i]))
      && s[0].start == 0.0
      && (forall i :: 0 <= i < |s| - 1 ==> s[i + 1].start == s[i].end)
      && (forall i :: 0 <= i < |s| ==> s[i].start <= s[i].end <= total)
      && s[|s| - 1].end == total
      && (forall i :: 0 <= i < |s| ==> s[i].start == WordsTime(total / (|words| as real), WordsBefore(g, i)))
  {
    GroupsShape(words);
    LaidExact(words, total);
    ExactCoverage(Groups(words), |words|, total);
  }

  lemma ExactCoverage(g: seq<seq<string>>, n: nat, total: real)
    requires g != [] && n > 0 && total >= 0.0 && WordsBefore(g, |g|) == n
    ensures var e := ExactLayOut(g, total / (n as real), 0);
      && |e| == |g|
      && (forall i :: 0 <= i < |e| ==> e[i].text == Join(" ", g[i]))
      && e[0].start == 0.0
      && (forall i :: 0 <= i < |e| - 1 ==> e[i + 1].start == e[i].end)
      && (forall i :: 0 <= i < |e| ==> e[i].start <= e[i].end <= total)
      && e[|e| - 1].end == total
      && (forall i :: 0 <= i < |e| ==> e[i].start == WordsTime(total / (n as real), WordsBefore(g, i)))
  {
    var perWord := total / (n as real);
    var e := ExactLayOut(g, perWord, 0);
    ExactLayOutLength(g, perWord, 0);
    forall i | 0 <= i < |e|
      ensures e[i].text == Join(" ", g[i])
      ensures e[i].start == WordsTime(perWord, WordsBefore(g, i))
      ensures e[i].end == WordsTime(perWord, WordsBefore(g, i + 1))
      ensures e[i].start <= e[i].end <= total
    {
      ExactSpanBounds(g, n, total, i);
    }
    assert e[0].start == WordsTime(perWord, 0) == 0.0;
    PerWordTimes(total, n);
    assert e[|e| - 1].end == WordsTime(perWord, n) == total;
  }

  lemma ExactSpanBounds(g: seq<seq<string>>, n: nat, total: real, i: nat)
    requires n > 0 && total >= 0.0 && i < |g| && WordsBefore(g, |g|) == n
    ensures var s := ExactLayOut(g, total / (n as real), 0);
      && |s| == |g|
      && s[i].text == Join(" ", g[i])
      && s[i].start == WordsTime(total / (n as real), WordsBefore(g, i))
      && s[i].end == WordsTime(total / (n as real), WordsBefore(g, i + 1))
      && s[i].start <= s[i].end <= total
  {
    var perWord := total / (n as real);
    ExactLayOutWordsTime(g, perWord, 0, i);
    WordsBeforeMono(g, i, i + 1);
    WordsBeforeMono(g, i + 1, |g|);
    MulMono(perWord, WordsBefore(g, i), WordsBefore(g, i + 1));
    MulMono(perWord, WordsBefore(g, i + 1), n);
    PerWordTimes(total, n);
  }


  /** The laid-out spans sit at their exact word-proportional positions, and
      pinning the last end to the duration changes nothing on exact reals. */
  lemma LaidExact(words: seq<string>, total: real)
    requires words != [] && total >= 0.0
    ensures CaptionLayout(words, total) == ExactLayOut(Groups(words), total / (|words| as real), 0)
  {
    var g := Groups(words);
    var n := |words|;
    var perWord := total / (n as real);
    GroupsShape(words);
    PerWordTimes(total, n);
    LayOutIsExact(g, perWord, total, 0, n);
    var e := ExactLayOut(g, perWord, 0);
    ExactLayOutWordsTime(g, perWord, 0, |g| - 1);
    assert e[|e| - 1].end == total;
    PinLastEndNoop(e, total);
  }

  /** With `n` words sharing `total`, no words take no time and all of them
      take `total`. */
  lemma PerWordTimes(total: real, n: nat)
    requires n > 0
    ensures WordsTime(total / (n as real), 0) == 0.0
    ensures WordsTime(total / (n as real), n) == total
  {
    WordsTimeIsProduct(total / (n as real), n);
  }

  lemma PinLastEndNoop(spans: seq<CaptionSpan>, total: real)
    requires spans != [] && spans[|spans| - 1].end == total
    ensures PinLastEnd(spans, total) == spans
  {
    assert spans[|spans| - 1 := spans[|spans| - 1].(end := total)] == spans;
  }

  lemma {:induction false} WordsBeforeMono(g: seq<seq<string>>, i: nat, j: nat)
    requires i <= j <= |g|
    ensures WordsBefore(g, i) <= WordsBefore(g, j)
    decreases j - i
  {
    if i < j { WordsBeforeMono(g, i, j - 1); }
  }

  /** After the nudge, with a non-negative duration, every caption span has a
      positive length and keeps its start and text, and only spans whose laid-out
      length was within tolerance of zero changed, each to exactly 0.05 s;
      every other span keeps its end. */
  lemma CaptionSpansPositive(words: seq<string>, total: real)
    requires words != [] && total >= 0.0
    ensures var s := CaptionTimeline(words, total); var laid := CaptionLayout(words, total);
      && |s| == |laid|
      && forall i :: 0 <= i < |s| ==>
        && s[i].start == laid[i].start
        && s[i].text == laid[i].text
        && s[i].end > s[i].start
        && (s[i].end != laid[i].end ==> s[i].end == s[i].start + 0.05)
        && (IsClose(laid[i].end, laid[i].start) ==> s[i].end == s[i].start + 0.05)
        && (!IsClose(laid[i].end, laid[i].start) ==> s[i].end == laid[i].end)
  {
    CaptionLayoutCoverage(words, total);
    NudgeAllPositive(CaptionLayout(words, total));
  }

  lemma NudgeAllPositive(laid: seq<CaptionSpan>)
    requires forall i :: 0 <= i < |laid| ==> laid[i].start <= laid[i].end
    ensures var s := NudgeAll(laid);
      && |s| == |laid|
      && forall i :: 0 <= i < |s| ==>
        && s[i].start == laid[i].start
        && s[i].text == laid[i].text
        && s[i].end > s[i].start
        && (s[i].end != laid[i].end ==> s[i].end == s[i].start + 0.05)
        && (IsClose(laid[i].end, laid[i].start) ==> s[i].end == s[i].start + 0.05)
        && (!IsClose(laid[i].end, laid[i].start) ==> s[i].end == laid[i].end)
  {
    var s := NudgeAll(laid);
    forall i | 0 <= i < |s| ensures s[i].end > s[i].start {
      NudgePositive(laid[i]);
    }
  }

  lemma NudgePositive(c: CaptionSpan)
    requires c.start <= c.end
    ensures Nudge(c).end > Nudge(c).start
  {
  }

  /** Whitespace-only text yields a single empty span covering the duration. */
  lemma EmptyTextCaption(text: string, total: real)
    requires Words(text) == []
    ensures AllocateCaptionSpansSpec(text, Some(total), None, 0.0) == Ok([CaptionSpan(0.0, total, [])])
  {
  }

  /** Ten words over ten seconds: two five-word spans of five seconds each. */
  lemma TenWordsTwoSpans(words: seq<string>)
    requires |words| == 10
    ensures CaptionTimeline(words, 10.0) ==
      [CaptionSpan(0.0, 5.0, Join(" ", words[..5])), CaptionSpan(5.0, 10.0, Join(" ", words[5..]))]
  {
    assert Groups(words[5..]) == [words[5..]];
    var g := Groups(words);
    assert g == [words[..5], words[5..]];
    assert 10.0 / (10 as real) == 1.0;
    var rest := LayOut(g[1..], 1.0, 10.0, 5.0);
    assert g[1..][1..] == [];
    assert rest == [CaptionSpan(5.0, 10.0, Join(" ", words[5..]))];
    var laid := LayOut(g, 1.0, 10.0, 0.0);
    assert laid == [CaptionSpan(0.0, 5.0, Join(" ", words[..5]))] + rest;
    assert laid == [CaptionSpan(0.0, 5.0, Join(" ", words[..5])), CaptionSpan(5.0, 10.0, Join(" ", words[5..]))];
  }

  // ---------------------------------------------------------------------------
  // Karaoke word spans

  /** A token's weight: its length, and at least 1. */
  function Weight(tok: string): nat { if |tok| >= 1 then |tok| else 1 }

  /** Sum of the weights; every token weighs at least 1. */
  function TotalWeight(tokens: seq<string>): (n: nat)
    ensures n >= |tokens|
  {
    if tokens == [] then 0 else Weight(tokens[0]) + TotalWeight(tokens[1..])
  }

  /** Total weight of the first `i` tokens. */
  function WeightBefore(tokens: seq<string>, i: nat): nat
    requires i <= |tokens|
  {
    if i == 0 then 0 else WeightBefore(tokens, i - 1) + Weight(tokens[i - 1])
  }

  /** A token's slice of the duration: `total * (w / totalW)`. */
  function Share(total: real, w: nat, totalW: nat): real
    requires totalW > 0
  {
    total * Fraction(w, totalW)
  }

  function Fraction(w: nat, totalW: nat): real
    requires totalW > 0
  {
    (w as real) / (totalW as real)
  }

  /** Contiguous per-token layout from `t`, each token's end capped at `total`;
      `idx` numbers the entries. */
  function KaraokeLayOut(tokens: seq<string>, total: real, totalW: nat, t: real, idx: nat): (spans: seq<WordSpan>)
    requires totalW > 0
    ensures |spans| == |tokens|
  {
    if tokens == [] then []
    else
      var end := Min(total, t + Share(total, Weight(tokens[0]), totalW));
      [WordSpan(t, end, tokens[0], idx)] + KaraokeLayOut(tokens[1..], total, totalW, end, idx + 1)
  }

  /** The karaoke spans `allocate_karaoke_word_spans` returns for a token list. */
  function KaraokeTimeline(tokens: seq<string>, total: real): seq<WordSpan> {
    if tokens == [] then [WordSpan(0.0, total, [], 0)]
    else
      var laid := KaraokeLayOut(tokens, total, TotalWeight(tokens), 0.0, 0);
      laid[|laid| - 1 := laid[|laid| - 1].(end := total)]
  }

  function AllocateKaraokeWordSpansSpec(text: string, total: Option<real>, audioPath: Option<string>, estimated: real): Result<seq<WordSpan>> {
    match ResolveDuration(total, audioPath, estimated)
    case Err(e) => Err(e)
    case Ok(d) => Ok(KaraokeTimeline(Words(text), d))
  }

  /** `allocate_karaoke_word_spans`: the whitespace-separated tokens (all of
      them non-blank, so the blank filter keeps every one) share the duration
      in proportion to their weights, laid out contiguously with the last end
      pinned to the duration. */
  method AllocateKaraokeWordSpans(text: string, totalDuration: Option<real>, audioPath: Option<string>, estimated: real)
    returns (r: Result<seq<WordSpan>>)
    ensures r == AllocateKaraokeWordSpansSpec(text, totalDuration, audioPath, estimated)
  {
    var total: real;
    if totalDuration.None? {
      if audioPath.None? {
        return Err(ValueError(MissingDuration));
      }
      total := estimated;
    } else {
      total := totalDuration.value;
    }

    var tokens := Words(text);
    if tokens == [] {
      return Ok([WordSpan(0.0, total, [], 0)]);
    }

    var spans := LayOutTokens(tokens, total, TotalWeight(tokens));
    spans := spans[|spans| - 1 := spans[|spans| - 1].(end := total)];
    return Ok(spans);
  }

  /** The per-token loop of `allocate_karaoke_word_spans`. */
  method LayOutTokens(tokens: seq<string>, total: real, totalW: nat) returns (spans: seq<WordSpan>)
    requires totalW > 0
    ensures spans == KaraokeLayOut(tokens, total, totalW, 0.0, 0)
  {
    spans := [];
    var t := 0.0;
    for k := 0 to |tokens|
      invariant spans + KaraokeLayOut(tokens[k..], total, totalW, t, k) == KaraokeLayOut(tokens, total, totalW, 0.0, 0)
    {
      var dur := Share(total, Weight(tokens[k]), totalW);
      var start := t;
      var end := Min(total, start + dur);
      assert tokens[k..][1..] == tokens[k + 1..];
      assert KaraokeLayOut(tokens[k..], total, totalW, t, k)
          == [WordSpan(start, end, tokens[k], k)] + KaraokeLayOut(tokens[k + 1..], total, totalW, end, k + 1);
      spans := spans + [WordSpan(start, end, tokens[k], k)];
      t := end;
    }
    assert tokens[|tokens|..] == [];
  }

  /** The karaoke layout with no cap, on the per-weight-unit time `perUnit`. */
  function ExactKaraoke(tokens: seq<string>, perUnit: real, b: nat, idx: nat): seq<WordSpan> {
    if tokens == [] then []
    else
      [WordSpan(WordsTime(perUnit, b), WordsTime(perUnit, b + Weight(tokens[0])), tokens[0], idx)]
        + ExactKaraoke(tokens[1..], perUnit, b + Weight(tokens[0]), idx + 1)
  }

  lemma ShareIsUnitTime(total: real, w: nat, totalW: nat)
    requires totalW > 0
    ensures Share(total, w, totalW) == WordsTime(total / (totalW as real), w)
  {
    var W := totalW as real;
    WordsTimeIsProduct(total / W, w);
    assert Fraction(w, totalW) == (w as real) / W;
    assert total * ((w as real) / W) == (total * (w as real)) / W;
    assert (total / W) * (w as real) == (total * (w as real)) / W;
  }

  lemma {:induction false} KaraokeIsExact(tokens: seq<string>, total: real, totalW: nat, b: nat, idx: nat)
    requires totalW > 0 && total >= 0.0
    requires b + TotalWeight(tokens) <= totalW
    ensures KaraokeLayOut(tokens, total, totalW, WordsTime(total / (totalW as real), b), idx)
         == ExactKaraoke(tokens, total / (totalW as real), b, idx)
    decreases |tokens|
  {
    if tokens != [] {
      var perUnit := total / (totalW as real);
      var b' := b + Weight(tokens[0]);
      ShareIsUnitTime(total, Weight(tokens[0]), totalW);
      MulMono(perUnit, b', totalW);
      MulAdd(perUnit, b, Weight(tokens[0]));
      PerWordTimes(total, totalW);
      assert WordsTime(perUnit, totalW) == total;
      KaraokeIsExact(tokens[1..], total, totalW, b', idx + 1);
    }
  }

  lemma {:induction false} WeightBeforeCons(tokens: seq<string>, i: nat)
    requires tokens != [] && i < |tokens|
    ensures WeightBefore(tokens, i + 1) == Weight(tokens[0]) + WeightBefore(tokens[1..], i)
    decreases i
  {
    if i > 0 {
      WeightBeforeCons(tokens, i - 1);
      assert tokens[1..][i - 1] == tokens[i];
    }
  }

  lemma {:induction false} WeightBeforeAll(tokens: seq<string>)
    ensures WeightBefore(tokens, |tokens|) == TotalWeight(tokens)
    decreases |tokens|
  {
    if tokens != [] {
      WeightBeforeAll(tokens[1..]);
      WeightBeforeCons(tokens, |tokens| - 1);
    }
  }

  lemma {:induction false} WeightBeforeMono(tokens: seq<string>, i: nat, j: nat)
    requires i <= j <= |tokens|
    ensures WeightBefore(tokens, i) <= WeightBefore(tokens, j)
    decreases j - i
  {
    if i < j { WeightBeforeMono(tokens, i, j - 1); }
  }

  /** Entry `i` of the exact karaoke layout, by position. */
  lemma {:induction false} ExactKaraokeAt(tokens: seq<string>, perUnit: real, b: nat, idx: nat, i: nat)
    requires i < |tokens|
    ensures |ExactKaraoke(tokens, perUnit, b, idx)| == |tokens|
    ensures ExactKaraoke(tokens, perUnit, b, idx)[i] ==
      WordSpan(WordsTime(perUnit, b + WeightBefore(tokens, i)), WordsTime(perUnit, b + WeightBefore(tokens, i + 1)),
               tokens[i], idx + i)
    decreases i
  {
    ExactKaraokeLength(tokens, perUnit, b, idx);
    if i > 0 {
      var rest := tokens[1..];
      ExactKaraokeAt(rest, perUnit, b + Weight(tokens[0]), idx + 1, i - 1);
      WeightBeforeCons(tokens, i - 1);
      WeightBeforeCons(tokens, i);
      assert ExactKaraoke(tokens, perUnit, b, idx)[i] == ExactKaraoke(rest, perUnit, b + Weight(tokens[0]), idx + 1)[i - 1];
    } else {
      assert WeightBefore(tokens, 1) == Weight(tokens[0]);
    }
  }

  lemma {:induction false} ExactKaraokeLength(tokens: seq<string>, perUnit: real, b: nat, idx: nat)
    ensures |ExactKaraoke(tokens, perUnit, b, idx)| == |tokens|
    decreases |tokens|
  {
    if tokens != [] { ExactKaraokeLength(tokens[1..], perUnit, b + Weight(tokens[0]), idx + 1); }
  }

  /** Karaoke spans for a non-empty token list and a non-negative duration: one
      span per token, in order, carrying the token and its position; the first
      starts at 0; each starts where the previous ended and ends within the
      duration; the last ends exactly at the duration; each token starts at its
      weight-proportional position and lasts its weight's share of the
      duration. */
  lemma KaraokeCoverage(tokens: seq<string>, total: real)
    requires tokens != [] && total >= 0.0
    ensures var s := KaraokeTimeline(tokens, total); var pu := total / (TotalWeight(tokens) as real);
      && |s| == |tokens|
      && (forall i :: 0 <= i < |s| ==> s[i].text == tokens[i] && s[i].index == i)
      && s[0].start == 0.0
      && (forall i :: 0 <= i < |s| - 1 ==> s[i + 1].start == s[i].end)
      && (forall i :: 0 <= i < |s| ==> s[i].start <= s[i].end <= total)
      && s[|s| - 1].end == total
      && (forall i :: 0 <= i < |s| ==> s[i].start == WordsTime(pu, WeightBefore(tokens, i)))
      && (forall i :: 0 <= i < |s| ==> s[i].end == s[i].start + WordsTime(pu, Weight(tokens[i])))
  {
    KaraokeExact(tokens, total);
    ExactKaraokeCoverage(tokens, total, TotalWeight(tokens));
  }

  /** The karaoke spans sit at their exact weight-proportional positions, and
      pinning the last end changes nothing on exact reals. */
  lemma KaraokeExact(tokens: seq<string>, total: real)
    requires tokens != [] && total >= 0.0
    ensures KaraokeTimeline(tokens, total) == ExactKaraoke(tokens, total / (TotalWeight(tokens) as real), 0, 0)
  {
    var W := TotalWeight(tokens);
    var pu := total / (W as real);
    assert WordsTime(pu, 0) == 0.0;
    KaraokeIsExact(tokens, total, W, 0, 0);
    var laid := KaraokeLayOut(tokens, total, W, 0.0, 0);
    ExactKaraokeAt(tokens, pu, 0, 0, |tokens| - 1);
    WeightBeforeAll(tokens);
    PerWordTimes(total, W);
    assert laid[|laid| - 1].end == total;
    assert laid[|laid| - 1 := laid[|laid| - 1].(end := total)] == laid;
  }

  lemma ExactKaraokeCoverage(tokens: seq<string>, total: real, W: nat)
    requires tokens != [] && total >= 0.0 && W == TotalWeight(tokens)
    ensures var e := ExactKaraoke(tokens, total / (W as real), 0, 0); var pu := total / (W as real);
      && |e| == |tokens|
      && (forall i :: 0 <= i < |e| ==> e[i].text == tokens[i] && e[i].index == i)
      && e[0].start == 0.0
      && (forall i :: 0 <= i < |e| - 1 ==> e[i + 1].start == e[i].end)
      && (forall i :: 0 <= i < |e| ==> e[i].start <= e[i].end <= total)
      && e[|e| - 1].end == total
      && (forall i :: 0 <= i < |e| ==> e[i].start == WordsTime(pu, WeightBefore(tokens, i)))
      && (forall i :: 0 <= i < |e| ==> e[i].end == e[i].start + WordsTime(pu, Weight(tokens[i])))
  {
    var pu := total / (W as real);
    var e := ExactKaraoke(tokens, pu, 0, 0);
    ExactKaraokeLength(tokens, pu, 0, 0);
    WeightBeforeAll(tokens);
    PerWordTimes(total, W);
    assert WordsTime(pu, W) == total;
    forall i | 0 <= i < |e|
      ensures e[i].text == tokens[i] && e[i].index == i
      ensures e[i].start == WordsTime(pu, WeightBefore(tokens, i))
      ensures e[i].end == WordsTime(pu, WeightBefore(tokens, i + 1))
      ensures e[i].start <= e[i].end <= total
      ensures e[i].end == e[i].start + WordsTime(pu, Weight(tokens[i]))
    {
      ExactKaraokeSpan(tokens, total, W, i);
    }
    assert e[0].start == WordsTime(pu, 0) == 0.0;
  }

  lemma ExactKaraokeSpan(tokens: seq<string>, total: real, W: nat, i: nat)
    requires i < |tokens| && total >= 0.0 && W == TotalWeight(tokens) && W > 0
    ensures var e := ExactKaraoke(tokens, total / (W as real), 0, 0); var pu := total / (W as real);
      && |e| == |tokens|
      && e[i].text == tokens[i] && e[i].index == i
      && e[i].start == WordsTime(pu, WeightBefore(tokens, i))
      && e[i].end == WordsTime(pu, WeightBefore(tokens, i + 1))
      && e[i].start <= e[i].end <= total
      && e[i].end == e[i].start + WordsTime(pu, Weight(tokens[i]))
  {
    var pu := total / (W as real);
    ExactKaraokeAt(tokens, pu, 0, 0, i);
    WeightBeforeAll(tokens);
    PerWordTimes(total, W);
    WeightBeforeMono(tokens, i, i + 1);
    WeightBeforeMono(tokens, i + 1, |tokens|);
    MulMono(pu, WeightBefore(tokens, i), WeightBefore(tokens, i + 1));
    MulMono(pu, WeightBefore(tokens, i + 1), W);
    MulAdd(pu, WeightBefore(tokens, i), Weight(tokens[i]));
  }

  /** Whitespace-only text yields a single empty, index-0 span covering the
      duration. */
  lemma EmptyTextKaraoke(text: string, total: real)
    requires Words(text) == []
    ensures AllocateKaraokeWordSpansSpec(text, Some(total), None, 0.0) == Ok([WordSpan(0.0, total, [], 0)])
  {
  }

  // ---------------------------------------------------------------------------
  // Transcription alignment

  /** Python's `\w` restricted to ASCII: letters, digits and underscore. */
  predicate IsWordChar(c: char) {
    'a' <= c <= 'z' || 'A' <= c <= 'Z' || '0' <= c <= '9' || c == '_'
  }

  predicate AllWordChars(s: string) {
    forall i :: 0 <= i < |s| ==> IsWordChar(s[i])
  }

  /** Length of the run of word characters that starts `s`. */
  function WordRun(s: string): (n: nat)
    ensures n <= |s|
    ensures forall i :: 0 <= i < n ==> IsWordChar(s[i])
    ensures n < |s| ==> !IsWordChar(s[n])
  {
    if s == [] || !IsWordChar(s[0]) then 0 else 1 + WordRun(s[1..])
  }

  /** `re.findall(r'\b\w+\b', s)`: the maximal runs of word characters, in order. */
  function WordTokens(s: string): (ws: seq<string>)
    ensures forall i :: 0 <= i < |ws| ==> ws[i] != [] && AllWordChars(ws[i])
    decreases |s|
  {
    if s == [] then []
    else if !IsWordChar(s[0]) then WordTokens(s[1..])
    else
      var n := WordRun(s);
      [s[..n]] + WordTokens(s[n..])
  }

  /** Tokenising the space-joined list of word-character tokens gives the list back. */
  lemma {:induction false} WordTokensOfJoin(ws: seq<string>)
    requires forall i :: 0 <= i < |ws| ==> ws[i] != [] && AllWordChars(ws[i])
    ensures WordTokens(Join(" ", ws)) == ws
    decreases |ws|
  {
    if ws != [] {
      var s := Join(" ", ws);
      var rest := if |ws| == 1 then [] else " " + Join(" ", ws[1..]);
      assert s == ws[0] + rest;
      WordRunOf(ws[0], rest);
      if |ws| == 1 {
        assert ws == [ws[0]];
      } else {
        WordTokensOfJoin(ws[1..]);
        assert rest[1..] == Join(" ", ws[1..]);
        assert WordTokens(rest) == ws[1..];
      }
    }
  }

  lemma {:induction false} WordRunOf(w: string, rest: string)
    requires w != [] && AllWordChars(w)
    requires rest == [] || !IsWordChar(rest[0])
    ensures WordRun(w + rest) == |w|
    ensures WordTokens(w + rest) == [w] + WordTokens(rest)
    decreases |w|
  {
    var s := w + rest;
    if |w| > 1 {
      assert s[1..] == w[1..] + rest;
      WordRunOf(w[1..], rest);
    } else {
      assert s[1..] == rest;
    }
    assert s[..|w|] == w && s[|w|..] == rest;
  }

  /** The time given to each original word beyond the transcription's count. */
  const ExtraWordDuration := 0.5

  /** Word `i` of an aligned transcription: the original token with the
      transcription's timing while there is one, else a 0.5 s slot after the
      last timed word. */
  function AlignedWord(whisper: seq<TimedWord>, orig: seq<string>, i: nat): TimedWord
    requires whisper != [] && i < |orig|
  {
    if i < |whisper| then TimedWord(whisper[i].start, whisper[i].end, orig[i])
    else
      var start := whisper[|whisper| - 1].end + ExtraWordDuration * ((i - |whisper|) as real);
      TimedWord(start, start + ExtraWordDuration, orig[i])
  }

  /** Whether the token counts are close enough (within two) to align. */
  predicate CountsClose(orig: seq<string>, whisper: seq<TimedWord>) {
    -2 <= |orig| - |whisper| <= 2
  }

  /** What `_align_whisper_to_original` returns, in closed form. */
  function AlignSpec(whisper: seq<TimedWord>, original: string): seq<TimedWord> {
    var orig := WordTokens(Lower(original));
    if orig == [] || whisper == [] || !CountsClose(orig, whisper) then whisper
    else seq(|orig|, i requires 0 <= i < |orig| => AlignedWord(whisper, orig, i))
  }

  /** `_align_whisper_to_original`: when the original text's lower-cased word
      tokens number within two of the transcribed words, the original tokens
      take the transcription's timings position by position, and tokens past
      its end get consecutive 0.5 s slots; otherwise the transcription is kept.
      The transcribed words themselves are only counted. */
  method AlignWhisperToOriginal(whisper: seq<TimedWord>, original: string) returns (r: seq<TimedWord>)
    ensures r == AlignSpec(whisper, original)
  {
    var orig := WordTokens(Lower(original));
    if |orig| == 0 || |whisper| == 0 {
      return whisper;
    }
    if -2 <= |orig| - |whisper| <= 2 {
      var aligned: seq<TimedWord> := [];
      for i := 0 to |orig|
        invariant |aligned| == i
        invariant forall j :: 0 <= j < i ==> aligned[j] == AlignedWord(whisper, orig, j)
      {
        if i < |whisper| {
          aligned := aligned + [TimedWord(whisper[i].start, whisper[i].end, orig[i])];
        } else {
          // `aligned` already holds the word before, since `whisper` is non-empty
          var lastEnd := aligned[|aligned| - 1].end;
          aligned := aligned + [TimedWord(lastEnd, lastEnd + ExtraWordDuration, orig[i])];
        }
      }
      return aligned;
    }
    return whisper;
  }

  /** Alignment, related step by step: with close counts the result is the
      original token list; the first words keep the transcription's timings;
      each word past the transcription starts where the previous one ended and
      lasts 0.5 s. With far-apart counts, or either side empty, the
      transcription comes back unchanged. */
  lemma AlignShape(whisper: seq<TimedWord>, original: string)
    ensures var orig := WordTokens(Lower(original)); var r := AlignSpec(whisper, original);
      if orig != [] && whisper != [] && CountsClose(orig, whisper) then
        && |r| == |orig|
        && (forall i :: 0 <= i < |r| ==> r[i].word == orig[i])
        && (forall i :: 0 <= i < |r| && i < |whisper| ==> r[i].start == whisper[i].start && r[i].end == whisper[i].end)
        && (forall i :: |whisper| <= i < |r| ==>
              r[i].start == r[i - 1].end && r[i].end == r[i].start + ExtraWordDuration)
      else r == whisper
  {
    var orig := WordTokens(Lower(original));
    var r := AlignSpec(whisper, original);
    if orig != [] && whisper != [] && CountsClose(orig, whisper) {
      var n := |whisper|;
      var e := whisper[n - 1].end;
      forall i | n <= i < |r|
        ensures r[i].start == r[i - 1].end && r[i].end == r[i].start + ExtraWordDuration
      {
        assert r[i] == AlignedWord(whisper, orig, i);
        assert r[i - 1] == AlignedWord(whisper, orig, i - 1);
        assert r[i].start == e + ExtraWordDuration * ((i - n) as real);
        if i - 1 < n {
          assert r[i - 1].end == e;
        } else {
          assert r[i - 1].end == e + ExtraWordDuration * ((i - 1 - n) as real) + ExtraWordDuration;
        }
      }
    }
  }

  /** The transcription's word count changes by at most two in alignment. */
  lemma AlignKeepsCount(whisper: seq<TimedWord>, original: string)
    ensures -2 <= |AlignSpec(whisper, original)| - |whisper| <= 2
  {
  }

  /** What `whisper_word_timestamps` returns: timed words from the transcriber,
      or, when it is not installed, the length-weighted karaoke estimate. */
  datatype Timestamps = Timed(words: seq<TimedWord>) | Estimated(spans: seq<WordSpan>)

  const Placeholder := "..."

  /** `whisper_word_timestamps`. The transcriber is outside the model: whether
      it is available and the words it produced are inputs, as is the
      estimated duration of the audio file. */
  function WhisperWordTimestamps(available: bool, transcribed: seq<TimedWord>, original: Option<string>, estimated: real): (r: Timestamps)
    ensures !available ==> r.Estimated?
    ensures available ==> r.Timed?
  {
    if !available then
      Estimated(KaraokeTimeline(Words(if original.Some? then original.value else []), estimated))
    else
      var words := if original.Some? && original.value != [] && transcribed != []
                   then AlignSpec(transcribed, original.value) else transcribed;
      if words == [] then Timed([TimedWord(0.0, estimated, Placeholder)]) else Timed(words)
  }

  /** Timestamps are never empty; the placeholder entry spanning the estimated
      duration appears exactly when the transcriber produced no words; otherwise
      the word count is within two of the transcription's. */
  lemma TimestampsNonEmpty(available: bool, transcribed: seq<TimedWord>, original: Option<string>, estimated: real)
    ensures var r := WhisperWordTimestamps(available, transcribed, original, estimated);
      && (r.Timed? ==> r.words != [])
      && (r.Estimated? ==> r.spans != [])
      && (available && transcribed == [] ==> r == Timed([TimedWord(0.0, estimated, Placeholder)]))
      && (available && transcribed != [] ==> -2 <= |r.words| - |transcribed| <= 2)
  {
    if available && transcribed != [] && original.Some? && original.value != [] {
      AlignKeepsCount(transcribed, original.value);
      var orig := WordTokens(Lower(original.value));
      if orig != [] && CountsClose(orig, transcribed) {
        assert |AlignSpec(transcribed, original.value)| == |orig|;
      }
    }
    if !available {
      var tokens := Words(if original.Some? then original.value else []);
      if tokens != [] {
        assert |KaraokeLayOut(tokens, estimated, TotalWeight(tokens), 0.0, 0)| == |tokens|;
      }
    }
  }

  /** `words_to_karaoke_spans`: number the words and strip their text. */
  method WordsToKaraokeSpans(words: seq<TimedWord>) returns (spans: seq<WordSpan>)
    ensures |spans| == |words|
    ensures forall i :: 0 <= i < |words| ==>
      spans[i] == WordSpan(words[i].start, words[i].end, Strip(words[i].word), i)
  {
    spans := [];
    for idx := 0 to |words|
      invariant |spans| == idx
      invariant forall i :: 0 <= i < idx ==> spans[i] == WordSpan(words[i].start, words[i].end, Strip(words[i].word), i)
    {
      var w := words[idx];
      spans := spans + [WordSpan(w.start, w.end, Strip(w.word), idx)];
    }
  }

  /** Karaoke spans built from an aligned transcription carry exactly the
      original text's tokens, numbered 0, 1, 2, ... */
  lemma AlignedSpansCarryTokens(whisper: seq<TimedWord>, original: string, spans: seq<WordSpan>)
    requires var orig := WordTokens(Lower(original));
      orig != [] && whisper != [] && CountsClose(orig, whisper)
    requires var r := AlignSpec(whisper, original);
      |spans| == |r| && forall i :: 0 <= i < |r| ==> spans[i] == WordSpan(r[i].start, r[i].end, Strip(r[i].word), i)
    ensures |spans| == |WordTokens(Lower(original))|
    ensures forall i :: 0 <= i < |spans| ==> spans[i].text == WordTokens(Lower(original))[i] && spans[i].index == i
  {
    var orig := WordTokens(Lower(original));
    AlignShape(whisper, original);
    forall i | 0 <= i < |spans| ensures spans[i].text == orig[i] {
      WordCharsNotSpace(orig[i]);
      StripNoop(orig[i]);
    }
  }

  lemma WordCharsNotSpace(w: string)
    requires w != [] && AllWordChars(w)
    ensures !IsSpace(w[0]) && !IsSpace(w[|w| - 1])
  {
  }
}
