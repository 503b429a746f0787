/** The bookkeeping of the YouTube upload manager (app/youtube_uploader.py):
    the sliding-window rate limit, the queue status report, the upload
    request's retry loop, the record of finished uploads, the queue items'
    retry counters, saving and loading the queue, and resetting the
    integration. Clocks, the upload service and the files are inputs or
    fields; threads, OAuth and logging are outside the model. */
module YouTubeUploader {
  import opened Common
  import opened Text

  // ---------------------------------------------------------------------------
  // Data

  /** The fields of `VideoMetadata` the bookkeeping carries. */
  datatype VideoMetadata = VideoMetadata(filePath: string, title: string, description: string,
                                         tags: seq<string>, categoryId: string, privacyStatus: string)

  /** The record `_record_upload` stores for a finished upload; `timestamp`
      is the clock reading in seconds. */
  datatype UploadRecord = UploadRecord(videoId: string, title: string, filePath: string,
                                       uploadedAt: string, timestamp: real)

  /** A queue item with its retry counter. */
  datatype QueueItem = QueueItem(metadata: VideoMetadata, addedAt: string, attempts: int, maxAttempts: int)

  /** A queue item as read from the queue file, where either required key may
      be missing. */
  datatype StoredItem = StoredItem(metadata: Option<VideoMetadata>, addedAt: Option<string>, attempts: int, maxAttempts: int)

  datatype UploadResult = UploadResult(success: bool, videoId: Option<string>, videoUrl: Option<string>,
                                       error: Option<string>, retryAfter: Option<int>)

  const MaxUploadsPerDay := 10
  /** 24 hours, in seconds. */
  const RateLimitWindow := 86400.0
  const FirstAttempts := 0
  const DefaultMaxAttempts := 3

  // ---------------------------------------------------------------------------
  // Rate limit

  /** The uploads within the window before `now`, in order. */
  function Recent(history: seq<UploadRecord>, now: real): (r: seq<UploadRecord>)
    ensures |r| <= |history|
    ensures forall k :: 0 <= k < |r| ==> r[k] in history && now - r[k].timestamp < RateLimitWindow
  {
    if history == [] then []
    else
      var rest := Recent(history[1..], now);
      if now - history[0].timestamp < RateLimitWindow then [history[0]] + rest else rest
  }

  function OldestTimestamp(records: seq<UploadRecord>): (t: real)
    requires records != []
    ensures forall k :: 0 <= k < |records| ==> t <= records[k].timestamp
    ensures exists k :: 0 <= k < |records| && t == records[k].timestamp
  {
    if |records| == 1 then records[0].timestamp
    else Min(records[0].timestamp, OldestTimestamp(records[1..]))
  }

  /** `can_upload_now`: whether an upload may start, and the uploads left or
      the whole seconds until the oldest recent upload leaves the window. */
  datatype Allowance = Allowance(allowed: bool, value: int)

  function CanUploadNow(history: seq<UploadRecord>, now: real): Allowance {
    var recent := Recent(history, now);
    var remaining := MaxUploadsPerDay - |recent|;
    if remaining > 0 then Allowance(true, remaining)
    else if recent != [] then Allowance(false, Trunc(OldestTimestamp(recent) + RateLimitWindow - now))
    else Allowance(true, MaxUploadsPerDay)
  }

  /** A record counts against the limit exactly when it lies within the
      window (`RecentConcat` gives their order and number). */
  lemma {:induction false} RecentMembers(history: seq<UploadRecord>, now: real)
    ensures forall r :: r in Recent(history, now) <==> r in history && now - r.timestamp < RateLimitWindow
    decreases |history|
  {
    if history != [] {
      RecentMembers(history[1..], now);
      assert forall r :: r in history <==> r == history[0] || r in history[1..];
    }
  }

  /** The counted records keep the history's order, one per record inside
      the window: the history split in two counts as its parts, one after
      the other. */
  lemma {:induction false} RecentConcat(a: seq<UploadRecord>, b: seq<UploadRecord>, now: real)
    ensures Recent(a + b, now) == Recent(a, now) + Recent(b, now)
    decreases |a|
  {
    if a == [] {
      assert a + b == b;
    } else {
      assert (a + b)[0] == a[0] && (a + b)[1..] == a[1..] + b;
      RecentConcat(a[1..], b, now);
      var head := if now - a[0].timestamp < RateLimitWindow then [a[0]] else [];
      AppendAssoc(head, Recent(a[1..], now), Recent(b, now));
    }
  }

  /** An upload may start exactly when fewer than 10 uploads lie in the
      window, and then the allowance is the number left; otherwise the wait
      is the whole seconds until the oldest of them leaves the window, which
      is never negative and, when no record is in the future, at most a day. */
  lemma CanUploadNowMeaning(history: seq<UploadRecord>, now: real)
    ensures var a := CanUploadNow(history, now); var n := |Recent(history, now)|;
      && (a.allowed <==> n < MaxUploadsPerDay)
      && (a.allowed ==> a.value == MaxUploadsPerDay - n && a.value >= 1)
      && (!a.allowed ==> a.value >= 0)
      && (!a.allowed && (forall k :: 0 <= k < |history| ==> history[k].timestamp <= now) ==> a.value <= 86400)
  {
    var recent := Recent(history, now);
    if |recent| >= MaxUploadsPerDay {
      var t := OldestTimestamp(recent);
      var k :| 0 <= k < |recent| && t == recent[k].timestamp;
      assert now - t < RateLimitWindow;
      if forall j :: 0 <= j < |history| ==> history[j].timestamp <= now {
        assert recent[k] in history;
      }
    }
  }

  /** Ten uploads within the day block the eleventh. */
  lemma TenUploadsBlock(history: seq<UploadRecord>, now: real)
    requires |history| == 10
    requires forall k :: 0 <= k < 10 ==> now - 3600.0 <= history[k].timestamp <= now
    ensures !CanUploadNow(history, now).allowed
  {
    RecentAll(history, now);
  }

  lemma {:induction false} RecentAll(history: seq<UploadRecord>, now: real)
    requires forall k :: 0 <= k < |history| ==> now - history[k].timestamp < RateLimitWindow
    ensures Recent(history, now) == history
    decreases |history|
  {
    if history != [] {
      RecentAll(history[1..], now);
      assert [history[0]] + history[1..] == history;
    }
  }

  /** `get_queue_status`. The rate limit and the count of today's uploads
      each read the clock: `now` and `countedAt`. */
  datatype QueueStatus = QueueStatus(queueSize: nat, canUploadNow: bool, uploadsRemainingToday: int,
                                     nextUploadAvailableIn: int, uploadsToday: nat, totalUploads: nat)

  function GetQueueStatus(queueSize: nat, history: seq<UploadRecord>, uploaded: seq<UploadRecord>,
                          now: real, countedAt: real): QueueStatus
  {
    var a := CanUploadNow(history, now);
    QueueStatus(queueSize, a.allowed, if a.allowed then a.value else 0, if !a.allowed then a.value else 0,
                |Recent(history, countedAt)|, |uploaded|)
  }

  /** Exactly one of the remaining uploads and the wait is reported; with one
      clock reading the remaining uploads and today's count add up to 10,
      and a wait is reported only once 10 uploads lie within the day. */
  lemma QueueStatusMeaning(queueSize: nat, history: seq<UploadRecord>, uploaded: seq<UploadRecord>, now: real)
    ensures var s := GetQueueStatus(queueSize, history, uploaded, now, now);
      && (s.canUploadNow ==> s.uploadsRemainingToday + s.uploadsToday == MaxUploadsPerDay && s.nextUploadAvailableIn == 0)
      && (!s.canUploadNow ==> s.uploadsRemainingToday == 0 && s.uploadsToday >= MaxUploadsPerDay && s.nextUploadAvailableIn >= 0)
  {
    CanUploadNowMeaning(history, now);
  }

  // ---------------------------------------------------------------------------
  // The upload request loop

  /** What one `next_chunk()` call gave: progress with no response yet, a
      response (with its `id`, if any), an `HttpError` with its status and
      text, or another exception's text. */
  datatype ChunkOutcome = Progress | Response(id: Option<string>) | HttpFailure(status: int, text: string) | OtherFailure(text: string)

  /** How the loop ended: whether a response came, its id, the last error
      message, and how many calls were made. */
  datatype LoopEnd = LoopEnd(responded: bool, id: Option<string>, error: Option<string>, calls: nat)

  const MaxRetries := 3
  const RetriableError := "Retriable error: "
  const NonRetriableError := "Non-retriable error: "
  const UnexpectedError := "Unexpected error: "

  predicate IsRetriable(status: int) { status == 500 || status == 502 || status == 503 || status == 504 }

  predicate Retried(o: ChunkOutcome) { o.HttpFailure? && IsRetriable(o.status) }

  /** The loop from call `i` on, after `retries` retriable failures. */
  function Drive(outs: seq<ChunkOutcome>, i: nat, retries: nat, error: Option<string>): LoopEnd
    requires i <= |outs|
    decreases |outs| - i
  {
    if retries >= MaxRetries || i == |outs| then LoopEnd(false, None, error, i)
    else match outs[i]
      case Progress => Drive(outs, i + 1, retries, error)
      case Response(id) => LoopEnd(true, id, error, i + 1)
      case HttpFailure(status, text) =>
        if IsRetriable(status) then Drive(outs, i + 1, retries + 1, Some(RetriableError + text))
        else LoopEnd(false, None, Some(NonRetriableError + text), i + 1)
      case OtherFailure(text) => LoopEnd(false, None, Some(UnexpectedError + text), i + 1)
  }

  /** The `while response is None and retry_count < max_retries` loop of
      `upload_video`, over the outcomes of successive calls (running out of
      outcomes ends it like a missing response). */
  method RunUploadRequest(outs: seq<ChunkOutcome>) returns (end: LoopEnd)
    ensures end == Drive(outs, 0, 0, None)
  {
    var error: Option<string> := None;
    var retries := 0;
    var calls := 0;
    while calls < |outs| && retries < MaxRetries
      invariant calls <= |outs|
      invariant Drive(outs, 0, 0, None) == Drive(outs, calls, retries, error)
      decreases |outs| - calls
    {
      var o := outs[calls];
      calls := calls + 1;
      match o {
        case Progress =>
        case Response(id) =>
          return LoopEnd(true, id, error, calls);
        case HttpFailure(status, text) =>
          if IsRetriable(status) {
            error := Some(RetriableError + text);
            retries := retries + 1;
          } else {
            return LoopEnd(false, None, Some(NonRetriableError + text), calls);
          }
        case OtherFailure(text) =>
          return LoopEnd(false, None, Some(UnexpectedError + text), calls);
      }
    }
    return LoopEnd(false, None, error, calls);
  }

  function CountRetried(outs: seq<ChunkOutcome>): nat {
    if outs == [] then 0 else CountRetried(outs[..|outs| - 1]) + (if Retried(outs[|outs| - 1]) then 1 else 0)
  }

  /** The message `upload_video` keeps for a failed call, if it failed. */
  function FailureMessage(o: ChunkOutcome): Option<string> {
    match o
      case HttpFailure(status, text) => Some((if IsRetriable(status) then RetriableError else NonRetriableError) + text)
      case OtherFailure(text) => Some(UnexpectedError + text)
      case _ => None
  }

  /** The message of the last failed call among `outs`, if any failed. */
  function LastFailure(outs: seq<ChunkOutcome>): Option<string> {
    if outs == [] then None
    else if FailureMessage(outs[|outs| - 1]).Some? then FailureMessage(outs[|outs| - 1])
    else LastFailure(outs[..|outs| - 1])
  }

  /** The loop makes at least one call when there is one to make, makes each
      call only while fewer than three retries are used, retries after a
      500, 502, 503 or 504 and after nothing else, gives up on a retriable
      failure only once the third retry is used, stops at the first
      response (and responds exactly when its last call gave one), other
      HTTP error or other exception, and reports the message of the last
      failed call. */
  lemma DriveMeaning(outs: seq<ChunkOutcome>)
    ensures var e := Drive(outs, 0, 0, None);
      && e.calls <= |outs|
      && (outs != [] ==> e.calls >= 1)
      && CountRetried(outs[..e.calls]) <= MaxRetries
      && (e.calls >= 1 ==> CountRetried(outs[..e.calls - 1]) < MaxRetries)
      && (forall j :: 0 <= j < e.calls - 1 ==> outs[j] == Progress || Retried(outs[j]))
      && (e.responded ==> e.calls >= 1 && outs[e.calls - 1] == Response(e.id))
      && (e.calls >= 1 && outs[e.calls - 1].Response? ==> e.responded)
      && (!e.responded ==> e.id.None?)
      && (!e.responded && e.calls < |outs| ==>
            e.calls >= 1 && (Retried(outs[e.calls - 1]) || outs[e.calls - 1].HttpFailure? || outs[e.calls - 1].OtherFailure?))
      && (!e.responded && e.calls < |outs| && Retried(outs[e.calls - 1]) ==> CountRetried(outs[..e.calls]) == MaxRetries)
      && e.error == LastFailure(outs[..e.calls])
  {
    assert outs[..0] == [];
    DriveFrom(outs, 0, 0, None);
    DriveRetriesFrom(outs, 0, 0, None);
    DriveErrorFrom(outs, 0, 0, None);
  }

  /** From call `i` on, every call is made with retries left, and a
      retriable failure ends the loop only when it uses the last retry. */
  lemma {:induction false} DriveRetriesFrom(outs: seq<ChunkOutcome>, i: nat, retries: nat, error: Option<string>)
    requires i <= |outs| && retries <= MaxRetries
    requires CountRetried(outs[..i]) == retries
    ensures var e := Drive(outs, i, retries, error);
      && i <= e.calls <= |outs|
      && (e.calls > i ==> CountRetried(outs[..e.calls - 1]) < MaxRetries)
      && (!e.responded && e.calls < |outs| && e.calls > i && Retried(outs[e.calls - 1]) ==>
            CountRetried(outs[..e.calls]) == MaxRetries)
    decreases |outs| - i
  {
    if retries < MaxRetries && i < |outs| {
      CountRetriedSnoc(outs, i);
      if outs[i].Progress? || Retried(outs[i]) {
        var retries' := if outs[i].Progress? then retries else retries + 1;
        var error' := if outs[i].Progress? then error else Some(RetriableError + outs[i].text);
        assert Drive(outs, i, retries, error) == Drive(outs, i + 1, retries', error');
        DriveRetriesFrom(outs, i + 1, retries', error');
        if i + 1 < |outs| && retries' < MaxRetries {
          DriveTakesCall(outs, i + 1, retries', error');
        }
      } else {
        assert Drive(outs, i, retries, error).calls == i + 1;
      }
    }
  }

  /** With retries left and an outcome to take, the loop makes that call. */
  lemma DriveTakesCall(outs: seq<ChunkOutcome>, i: nat, retries: nat, error: Option<string>)
    requires i < |outs| && retries < MaxRetries
    ensures Drive(outs, i, retries, error).calls > i
    decreases |outs| - i
  {
    if outs[i].Progress? || Retried(outs[i]) {
      var retries' := if outs[i].Progress? then retries else retries + 1;
      var error' := if outs[i].Progress? then error else Some(RetriableError + outs[i].text);
      DriveCallsFrom(outs, i + 1, retries', error');
    }
  }

  lemma {:induction false} DriveCallsFrom(outs: seq<ChunkOutcome>, i: nat, retries: nat, error: Option<string>)
    requires i <= |outs|
    ensures i <= Drive(outs, i, retries, error).calls <= |outs|
    decreases |outs| - i
  {
    if retries < MaxRetries && i < |outs| && (outs[i].Progress? || Retried(outs[i])) {
      var retries' := if outs[i].Progress? then retries else retries + 1;
      var error' := if outs[i].Progress? then error else Some(RetriableError + outs[i].text);
      DriveCallsFrom(outs, i + 1, retries', error');
    }
  }

  /** From call `i` on, the reported error is the message of the last
      failed call, given that it was so before call `i`, and a response on
      the last call made is the loop's response. */
  lemma {:induction false} DriveErrorFrom(outs: seq<ChunkOutcome>, i: nat, retries: nat, error: Option<string>)
    requires i <= |outs|
    requires error == LastFailure(outs[..i])
    ensures var e := Drive(outs, i, retries, error);
      && i <= e.calls <= |outs|
      && e.error == LastFailure(outs[..e.calls])
      && (!e.responded ==> e.id.None?)
      && (e.calls > i && outs[e.calls - 1].Response? ==> e.responded)
    decreases |outs| - i
  {
    if retries < MaxRetries && i < |outs| {
      assert outs[..i + 1][..i] == outs[..i];
      assert outs[..i + 1][i] == outs[i];
      if outs[i].Progress? || Retried(outs[i]) {
        var retries' := if outs[i].Progress? then retries else retries + 1;
        var error' := if outs[i].Progress? then error else Some(RetriableError + outs[i].text);
        assert Drive(outs, i, retries, error) == Drive(outs, i + 1, retries', error');
        DriveErrorFrom(outs, i + 1, retries', error');
      }
    }
  }

  lemma {:induction false} DriveFrom(outs: seq<ChunkOutcome>, i: nat, retries: nat, error: Option<string>)
    requires i <= |outs| && retries <= MaxRetries
    requires CountRetried(outs[..i]) == retries
    requires forall j :: 0 <= j < i ==> outs[j] == Progress || Retried(outs[j])
    requires i > 0 && i < |outs| && retries == MaxRetries ==> Retried(outs[i - 1])
    ensures var e := Drive(outs, i, retries, error);
      && i <= e.calls <= |outs|
      && (i < |outs| && retries < MaxRetries ==> e.calls > i)
      && CountRetried(outs[..e.calls]) <= MaxRetries
      && (forall j :: 0 <= j < e.calls - 1 ==> outs[j] == Progress || Retried(outs[j]))
      && (e.responded ==> e.calls >= 1 && outs[e.calls - 1] == Response(e.id))
      && (!e.responded && e.calls < |outs| ==>
            e.calls >= 1 && (Retried(outs[e.calls - 1]) || outs[e.calls - 1].HttpFailure? || outs[e.calls - 1].OtherFailure?))
    decreases |outs| - i
  {
    if retries >= MaxRetries || i == |outs| || !(outs[i] == Progress || Retried(outs[i])) {
      DriveStops(outs, i, retries, error);
    } else {
      CountRetriedSnoc(outs, i);
      var o := outs[i];
      var retries', error' := if o.Progress? then retries else retries + 1, if o.Progress? then error else Some(RetriableError + o.text);
      assert Drive(outs, i, retries, error) == Drive(outs, i + 1, retries', error');
      DriveFrom(outs, i + 1, retries', error');
    }
  }

  /** The calls where the loop ends at once: the retries are used up, the
      outcomes ran out, or the call gave a response or a failure that is not
      retried. */
  lemma DriveStops(outs: seq<ChunkOutcome>, i: nat, retries: nat, error: Option<string>)
    requires i <= |outs| && retries <= MaxRetries
    requires retries >= MaxRetries || i == |outs| || !(outs[i] == Progress || Retried(outs[i]))
    requires CountRetried(outs[..i]) == retries
    requires forall j :: 0 <= j < i ==> outs[j] == Progress || Retried(outs[j])
    requires i > 0 && i < |outs| && retries == MaxRetries ==> Retried(outs[i - 1])
    ensures var e := Drive(outs, i, retries, error);
      && i <= e.calls <= |outs|
      && (i < |outs| && retries < MaxRetries ==> e.calls > i)
      && CountRetried(outs[..e.calls]) <= MaxRetries
      && (forall j :: 0 <= j < e.calls - 1 ==> outs[j] == Progress || Retried(outs[j]))
      && (e.responded ==> e.calls >= 1 && outs[e.calls - 1] == Response(e.id))
      && (!e.responded && e.calls < |outs| ==>
            e.calls >= 1 && (Retried(outs[e.calls - 1]) || outs[e.calls - 1].HttpFailure? || outs[e.calls - 1].OtherFailure?))
  {
    if retries < MaxRetries && i < |outs| {
      CountRetriedSnoc(outs, i);
    }
  }

  lemma CountRetriedSnoc(outs: seq<ChunkOutcome>, i: nat)
    requires i < |outs|
    ensures CountRetried(outs[..i + 1]) == CountRetried(outs[..i]) + (if Retried(outs[i]) then 1 else 0)
  {
    assert outs[..i + 1][..i] == outs[..i];
  }

  // ---------------------------------------------------------------------------
  // Saved queue

  function Store(item: QueueItem): StoredItem {
    StoredItem(Some(item.metadata), Some(item.addedAt), item.attempts, item.maxAttempts)
  }

  function StoreAll(items: seq<QueueItem>): (r: seq<StoredItem>)
    ensures |r| == |items| && forall k :: 0 <= k < |items| ==> r[k] == Store(items[k])
  {
    seq(|items|, k requires 0 <= k < |items| => Store(items[k]))
  }

  /** The filter of `_load_upload_queue`: the items that have both a
      'metadata' and an 'added_at' key, in order. */
  function LoadFilter(stored: seq<StoredItem>): seq<QueueItem> {
    if stored == [] then []
    else
      var s := stored[0];
      var rest := LoadFilter(stored[1..]);
      if s.metadata.Some? && s.addedAt.Some? then [QueueItem(s.metadata.value, s.addedAt.value, s.attempts, s.maxAttempts)] + rest
      else rest
  }

  /** A saved queue loads back as itself. */
  lemma {:induction false} LoadStoreAll(items: seq<QueueItem>)
    ensures LoadFilter(StoreAll(items)) == items
    decreases |items|
  {
    if items != [] {
      LoadStoreAll(items[1..]);
      assert StoreAll(items)[1..] == StoreAll(items[1..]);
      assert [items[0]] + items[1..] == items;
    }
  }

  /** Loading keeps exactly the complete items: each complete entry is
      loaded, every loaded item is an entry of the file as saved, and loading
      a file twice in a row adds nothing new. The order is `LoadFilterConcat`. */
  lemma {:induction false} LoadFilterMeaning(stored: seq<StoredItem>)
    ensures |LoadFilter(stored)| <= |stored|
    ensures forall k :: 0 <= k < |stored| && stored[k].metadata.Some? && stored[k].addedAt.Some? ==>
      QueueItem(stored[k].metadata.value, stored[k].addedAt.value, stored[k].attempts, stored[k].maxAttempts) in LoadFilter(stored)
    ensures forall q :: q in LoadFilter(stored) ==> exists k :: 0 <= k < |stored| && stored[k] == Store(q)
    ensures LoadFilter(StoreAll(LoadFilter(stored))) == LoadFilter(stored)
    decreases |stored|
  {
    LoadStoreAll(LoadFilter(stored));
    if stored != [] {
      var rest := stored[1..];
      LoadFilterMeaning(rest);
      forall k | 1 <= k < |stored| && stored[k].metadata.Some? && stored[k].addedAt.Some?
        ensures QueueItem(stored[k].metadata.value, stored[k].addedAt.value, stored[k].attempts, stored[k].maxAttempts) in LoadFilter(stored)
      {
        assert stored[k] == rest[k - 1];
      }
      forall q | q in LoadFilter(stored)
        ensures exists k :: 0 <= k < |stored| && stored[k] == Store(q)
      {
        if q in LoadFilter(rest) {
          var k :| 0 <= k < |rest| && rest[k] == Store(q);
          assert stored[k + 1] == Store(q);
        } else {
          assert stored[0] == Store(q);
        }
      }
    }
  }

  /** Loading keeps the file's order: loading a file made of two parts is
      loading the first part, then the second. */
  lemma {:induction false} LoadFilterConcat(a: seq<StoredItem>, b: seq<StoredItem>)
    ensures LoadFilter(a + b) == LoadFilter(a) + LoadFilter(b)
    decreases |a|
  {
    if a == [] {
      assert a + b == b;
    } else {
      assert (a + b)[0] == a[0] && (a + b)[1..] == a[1..] + b;
      LoadFilterConcat(a[1..], b);
      var head := if a[0].metadata.Some? && a[0].addedAt.Some?
        then [QueueItem(a[0].metadata.value, a[0].addedAt.value, a[0].attempts, a[0].maxAttempts)] else [];
      AppendAssoc(head, LoadFilter(a[1..]), LoadFilter(b));
    }
  }

  /** Every queue item still has an attempt left. */
  predicate AttemptsLeft(queue: seq<QueueItem>) {
    forall k :: 0 <= k < |queue| ==> 0 <= queue[k].attempts < queue[k].maxAttempts
  }

  // ---------------------------------------------------------------------------
  // The manager

  const NotInitialized := "YouTube API not initialized"
  const UnknownUploadError := "Unknown upload error"
  const WatchUrlPrefix := "https://www.youtube.com/watch?v="

  function RateLimitMessage(wait: int): string {
    "Rate limit exceeded. Try again in " + IntToString(wait) + " seconds"
  }

  class UploadManager {
    /** Whether an authenticated upload service is set up. */
    var service: bool
    /** Whether the OAuth token file exists. */
    var tokenStored: bool
    /** The in-memory upload queue, first item first. */
    var queue: seq<QueueItem>
    var uploadedVideos: seq<UploadRecord>
    var uploadHistory: seq<UploadRecord>
    /** The queue file (`None`: absent). */
    var queueFile: Option<seq<StoredItem>>
    /** The uploaded-videos file, which also serves as the history file. */
    var uploadsFile: Option<seq<UploadRecord>>

    /** The history used for rate limiting mirrors the uploaded videos. */
    predicate Valid()
      reads this
    {
      uploadHistory == uploadedVideos
    }

    /** `__init__`: no service yet; the queue is loaded from its file and the
        history is a copy of the uploaded videos. */
    constructor (tokenFile: bool, storedQueue: Option<seq<StoredItem>>, storedUploads: Option<seq<UploadRecord>>)
      ensures Valid()
      ensures !service && tokenStored == tokenFile
      ensures queue == (if storedQueue.Some? then LoadFilter(storedQueue.value) else [])
      ensures uploadedVideos == (if storedUploads.Some? then storedUploads.value else [])
      ensures queueFile == storedQueue && uploadsFile == storedUploads
    {
      service := false;
      tokenStored := tokenFile;
      queue := [];
      queueFile := storedQueue;
      uploadsFile := storedUploads;
      uploadedVideos := if storedUploads.Some? then storedUploads.value else [];
      uploadHistory := uploadedVideos;
      new;
      LoadUploadQueue();
    }

    /** `_load_upload_queue`: the complete items of the file are put on the
        queue in order. */
    method LoadUploadQueue()
      modifies this
      ensures queue == old(queue) + (if queueFile.Some? then LoadFilter(queueFile.value) else [])
      ensures service == old(service) && tokenStored == old(tokenStored) && queueFile == old(queueFile)
      ensures uploadedVideos == old(uploadedVideos) && uploadHistory == old(uploadHistory) && uploadsFile == old(uploadsFile)
    {
      if queueFile.Some? {
        var data := queueFile.value;
        for k := 0 to |data|
          invariant queue == old(queue) + LoadFilter(data[..k])
          invariant service == old(service) && tokenStored == old(tokenStored) && queueFile == old(queueFile)
          invariant uploadedVideos == old(uploadedVideos) && uploadHistory == old(uploadHistory) && uploadsFile == old(uploadsFile)
        {
          LoadFilterAppend(data[..k], data[k]);
          assert data[..k + 1] == data[..k] + [data[k]];
          var item := data[k];
          if item.metadata.Some? && item.addedAt.Some? {
            queue := queue + [QueueItem(item.metadata.value, item.addedAt.value, item.attempts, item.maxAttempts)];
          }
        }
        assert data[..|data|] == data;
      }
    }

    /** `_save_upload_queue`: the queue is drained into a list and a
        temporary queue, refilled from the temporary queue, and the list is
        written to the file. The queue comes out as it went in. */
    method SaveUploadQueue()
      modifies this
      ensures queue == old(queue) && queueFile == Some(StoreAll(old(queue)))
      ensures service == old(service) && tokenStored == old(tokenStored)
      ensures uploadedVideos == old(uploadedVideos) && uploadHistory == old(uploadHistory) && uploadsFile == old(uploadsFile)
    {
      var items: seq<QueueItem> := [];
      var temp: seq<QueueItem> := [];
      while queue != []
        invariant items + queue == old(queue) && temp == items
        invariant service == old(service) && tokenStored == old(tokenStored)
        invariant uploadedVideos == old(uploadedVideos) && uploadHistory == old(uploadHistory) && uploadsFile == old(uploadsFile)
        decreases |queue|
      {
        var item := queue[0];
        queue := queue[1..];
        items := items + [item];
        temp := temp + [item];
      }
      while temp != []
        invariant queue + temp == old(queue) && items == old(queue)
        invariant service == old(service) && tokenStored == old(tokenStored)
        invariant uploadedVideos == old(uploadedVideos) && uploadHistory == old(uploadHistory) && uploadsFile == old(uploadsFile)
        decreases |temp|
      {
        var item := temp[0];
        temp := temp[1..];
        queue := queue + [item];
      }
      queueFile := Some(StoreAll(items));
    }

    /** `add_video_to_queue`: a missing video file is refused; otherwise a
        fresh item with no attempts out of three joins the end of the queue
        and the queue is saved. */
    method AddVideoToQueue(metadata: VideoMetadata, fileExists: bool, addedAt: string) returns (added: bool)
      modifies this
      ensures added == fileExists
      ensures !added ==> queue == old(queue) && queueFile == old(queueFile)
      ensures added ==> queue == old(queue) + [QueueItem(metadata, addedAt, FirstAttempts, DefaultMaxAttempts)]
                        && queueFile == Some(StoreAll(queue))
      ensures AttemptsLeft(old(queue)) ==> AttemptsLeft(queue)
      ensures service == old(service) && tokenStored == old(tokenStored)
      ensures uploadedVideos == old(uploadedVideos) && uploadHistory == old(uploadHistory) && uploadsFile == old(uploadsFile)
    {
      if !fileExists {
        return false;
      }
      queue := queue + [QueueItem(metadata, addedAt, FirstAttempts, DefaultMaxAttempts)];
      SaveUploadQueue();
      return true;
    }

    /** `_record_upload`: the same record joins both the history and the
        uploaded videos, and the uploaded videos are saved. */
    method RecordUpload(videoId: string, metadata: VideoMetadata, uploadedAt: string, timestamp: real)
      modifies this
      requires Valid()
      ensures Valid()
      ensures uploadHistory == old(uploadHistory) + [UploadRecord(videoId, metadata.title, metadata.filePath, uploadedAt, timestamp)]
      ensures uploadedVideos == old(uploadedVideos) + [UploadRecord(videoId, metadata.title, metadata.filePath, uploadedAt, timestamp)]
      ensures uploadsFile == Some(uploadedVideos)
      ensures service == old(service) && tokenStored == old(tokenStored) && queue == old(queue) && queueFile == old(queueFile)
    {
      var record := UploadRecord(videoId, metadata.title, metadata.filePath, uploadedAt, timestamp);
      uploadHistory := uploadHistory + [record];
      uploadedVideos := uploadedVideos + [record];
      uploadsFile := Some(uploadedVideos);
    }

    /** `upload_video`, with the clock read at `now` for the rate limit and at
        `recordedAt` for the record, and the outcomes of the upload calls. */
    method UploadVideo(metadata: VideoMetadata, now: real, outs: seq<ChunkOutcome>, uploadedAt: string, recordedAt: real)
      returns (result: UploadResult)
      modifies this
      requires Valid()
      ensures Valid()
      ensures !old(service) ==> result == UploadResult(false, None, None, Some(NotInitialized), None)
      ensures old(service) && !CanUploadNow(old(uploadHistory), now).allowed ==>
        var wait := CanUploadNow(old(uploadHistory), now).value;
        result == UploadResult(false, None, None, Some(RateLimitMessage(wait)), Some(wait))
      ensures old(service) && CanUploadNow(old(uploadHistory), now).allowed ==>
        var e := Drive(outs, 0, 0, None);
        if e.responded && e.id.Some? then
          && result == UploadResult(true, e.id, Some(WatchUrlPrefix + e.id.value), None, None)
          && uploadHistory == old(uploadHistory) + [UploadRecord(e.id.value, metadata.title, metadata.filePath, uploadedAt, recordedAt)]
        else
          && result == UploadResult(false, None, None, Some(if e.error.Some? then e.error.value else UnknownUploadError), None)
          && uploadHistory == old(uploadHistory)
      ensures result.success ==> uploadsFile == Some(uploadedVideos)
      ensures !result.success ==> uploadHistory == old(uploadHistory) && uploadsFile == old(uploadsFile)
      ensures service == old(service) && tokenStored == old(tokenStored) && queue == old(queue) && queueFile == old(queueFile)
    {
      if !service {
        return UploadResult(false, None, None, Some(NotInitialized), None);
      }
      var allowance := CanUploadNow(uploadHistory, now);
      if !allowance.allowed {
        return UploadResult(false, None, None, Some(RateLimitMessage(allowance.value)), Some(allowance.value));
      }
      var end := RunUploadRequest(outs);
      if end.responded && end.id.Some? {
        var videoId := end.id.value;
        RecordUpload(videoId, metadata, uploadedAt, recordedAt);
        return UploadResult(true, Some(videoId), Some(WatchUrlPrefix + videoId), None, None);
      }
      return UploadResult(false, None, None, Some(if end.error.Some? then end.error.value else UnknownUploadError), None);
    }

    /** One pass of `_background_upload_worker` that finds the rate limit
        open: the first queue item is taken; a missing video file drops it;
        otherwise it is uploaded, and after a failure its attempts grow by
        one and it goes back to the end of the queue only while attempts
        remain; the queue is then saved. */
    method WorkerStep(now: real, fileExists: bool, outs: seq<ChunkOutcome>, uploadedAt: string, recordedAt: real)
      returns (result: Option<UploadResult>)
      modifies this
      requires Valid()
      ensures Valid()
      ensures !CanUploadNow(old(uploadHistory), now).allowed || old(queue) == [] ==>
        result.None? && queue == old(queue) && uploadHistory == old(uploadHistory)
      ensures CanUploadNow(old(uploadHistory), now).allowed && old(queue) != [] ==>
        var item := old(queue)[0];
        && (!fileExists ==> result.None? && queue == old(queue)[1..])
        && (fileExists ==> result.Some?)
        && (result.Some? && result.value.success ==> queue == old(queue)[1..])
        && (result.Some? && !result.value.success ==>
              queue == old(queue)[1..] + (if item.attempts + 1 < item.maxAttempts then [item.(attempts := item.attempts + 1)] else []))
      ensures CanUploadNow(old(uploadHistory), now).allowed && old(queue) != [] && fileExists ==>
        queueFile == Some(StoreAll(queue))
      ensures !(CanUploadNow(old(uploadHistory), now).allowed && old(queue) != [] && fileExists) ==>
        queueFile == old(queueFile)
      ensures result.Some? ==>
        var e := Drive(outs, 0, 0, None);
        result.value.success <==> old(service) && e.responded && e.id.Some?
      ensures result.Some? && result.value.success ==>
        var e := Drive(outs, 0, 0, None); var m := old(queue)[0].metadata;
        && uploadHistory == old(uploadHistory) + [UploadRecord(e.id.value, m.title, m.filePath, uploadedAt, recordedAt)]
        && uploadsFile == Some(uploadedVideos)
      ensures (result.None? || !result.value.success) ==>
        uploadHistory == old(uploadHistory) && uploadsFile == old(uploadsFile)
      ensures service == old(service) && tokenStored == old(tokenStored)
      ensures |queue| <= |old(queue)|
      ensures AttemptsLeft(old(queue)) ==> AttemptsLeft(queue)
    {
      var allowance := CanUploadNow(uploadHistory, now);
      if !allowance.allowed || queue == [] {
        return None;
      }
      var item := queue[0];
      queue := queue[1..];
      if !fileExists {
        return None;
      }
      var r := UploadVideo(item.metadata, now, outs, uploadedAt, recordedAt);
      if !r.success {
        item := item.(attempts := item.attempts + 1);
        if item.attempts < item.maxAttempts {
          queue := queue + [item];
        }
      }
      SaveUploadQueue();
      return Some(r);
    }

    /** `reset_youtube_integration`. The steps run in one `try`: the service
        goes; the token file, if present, is removed; with `clearQueue` the
        queue is drained and its file, if present, removed; with
        `clearHistory` both history lists are emptied and the uploaded-videos
        file, if present, removed. `tokenUnlinks`, `queueUnlinks` and
        `uploadsUnlinks` say whether each removal succeeds; a failed one
        raises, skips every later step and makes the result false. */
    method ResetIntegration(clearHistory: bool, clearQueue: bool,
                            tokenUnlinks: bool, queueUnlinks: bool, uploadsUnlinks: bool) returns (ok: bool)
      modifies this
      requires Valid()
      ensures Valid() && !service
      ensures var tokenFails := old(tokenStored) && !tokenUnlinks;
        var queueFails := clearQueue && old(queueFile).Some? && !queueUnlinks;
        var uploadsFails := clearHistory && old(uploadsFile).Some? && !uploadsUnlinks;
        && (ok <==> !tokenFails && !queueFails && !uploadsFails)
        && tokenStored == tokenFails
        && queue == (if !tokenFails && clearQueue then [] else old(queue))
        && queueFile == (if !tokenFails && clearQueue && queueUnlinks then None else old(queueFile))
        && uploadedVideos == (if !tokenFails && !queueFails && clearHistory then [] else old(uploadedVideos))
        && uploadHistory == (if !tokenFails && !queueFails && clearHistory then [] else old(uploadHistory))
        && uploadsFile == (if !tokenFails && !queueFails && clearHistory && uploadsUnlinks then None else old(uploadsFile))
    {
      service := false;
      if tokenStored {
        if !tokenUnlinks {
          return false;
        }
        tokenStored := false;
      }
      if clearQueue {
        while queue != []
          invariant !service && !tokenStored && (old(tokenStored) ==> tokenUnlinks)
          invariant uploadedVideos == old(uploadedVideos) && uploadHistory == old(uploadHistory)
          invariant uploadsFile == old(uploadsFile) && queueFile == old(queueFile)
          decreases |queue|
        {
          queue := queue[1..];
        }
        if queueFile.Some? {
          if !queueUnlinks {
            return false;
          }
          queueFile := None;
        }
      }
      if clearHistory {
        uploadedVideos := [];
        uploadHistory := [];
        if uploadsFile.Some? {
          if !uploadsUnlinks {
            return false;
          }
          uploadsFile := None;
        }
      }
      return true;
    }

    /** `get_queue_status` on the manager's state: the queue's length, the
        number of uploaded videos, and, read at one instant, the remaining
        uploads or the wait as `QueueStatusMeaning` gives them. */
    function Status(now: real, countedAt: real): (s: QueueStatus)
      reads this
      ensures s.queueSize == |queue| && s.totalUploads == |uploadedVideos|
      ensures s.canUploadNow == CanUploadNow(uploadHistory, now).allowed
      ensures now == countedAt && s.canUploadNow ==>
        s.uploadsRemainingToday + s.uploadsToday == MaxUploadsPerDay && s.nextUploadAvailableIn == 0
      ensures now == countedAt && !s.canUploadNow ==>
        s.uploadsRemainingToday == 0 && s.uploadsToday >= MaxUploadsPerDay && s.nextUploadAvailableIn >= 0
    {
      QueueStatusMeaning(|queue|, uploadHistory, uploadedVideos, now);
      GetQueueStatus(|queue|, uploadHistory, uploadedVideos, now, countedAt)
    }
  }

  lemma {:induction false} LoadFilterAppend(stored: seq<StoredItem>, s: StoredItem)
    ensures LoadFilter(stored + [s]) == LoadFilter(stored) +
      (if s.metadata.Some? && s.addedAt.Some? then [QueueItem(s.metadata.value, s.addedAt.value, s.attempts, s.maxAttempts)] else [])
    decreases |stored|
  {
    if stored == [] {
      assert [] + [s] == [s];
    } else {
      assert (stored + [s])[1..] == stored[1..] + [s];
      LoadFilterAppend(stored[1..], s);
    }
  }
}
