/** The refresh worker: splitting the refreshable users into chunks, the
    daily fan-out that dispatches one bulk job per chunk, the bulk job that
    crawls each of its users in turn, and the single-user job. The scheduler
    itself is not modelled: a dispatch is recorded, not run. */
module Worker {
  import opened Wrappers
  import AppleCrawl

  const ChunkSize: nat := 100
  const CronGroup: string := "cron"

  /** `arr.slice(lo, lo + size)`: the end is clamped to the length. */
  function Slice(arr: seq<string>, lo: nat, size: nat): (r: seq<string>)
    requires lo <= |arr|
    ensures |r| <= size
    ensures lo + size <= |arr| ==> |r| == size
  {
    if lo + size <= |arr| then arr[lo..lo + size] else arr[lo..]
  }

  /** `Math.ceil(n / size)`, by repeated subtraction. */
  function CeilDiv(n: nat, size: nat): nat
    requires size > 0
    decreases n
  {
    if n == 0 then 0
    else if n <= size then 1
    else 1 + CeilDiv(n - size, size)
  }

  /** `CeilDiv(n, size)` is the least `q` with `q * size >= n`. */
  lemma {:induction false} CeilDivIsCeiling(n: nat, size: nat)
    requires size > 0
    ensures var q := CeilDiv(n, size); q * size >= n && (q == 0 || (q - 1) * size < n)
    decreases n
  {
    if n > size {
      CeilDivIsCeiling(n - size, size);
      var q := CeilDiv(n - size, size);
      assert (1 + q) * size == q * size + size;
      if q > 0 {
        assert q * size == (q - 1) * size + size;
      }
    }
  }

  /** A chunk index below `CeilDiv(n, size)` starts inside the list. */
  lemma ChunkStartInside(n: nat, size: nat, i: nat)
    requires size > 0 && i < CeilDiv(n, size)
    ensures i * size < n
  {
    CeilDivIsCeiling(n, size);
    var q := CeilDiv(n, size);
    assert i * size <= (q - 1) * size;
  }

  /** `chunked(arr, size)`: `Math.ceil(arr.length / size)` pieces, piece `i`
      being `arr.slice(i * size, i * size + size)`. */
  function Chunked(arr: seq<string>, size: nat): (chunks: seq<seq<string>>)
    requires size > 0
    ensures |chunks| == CeilDiv(|arr|, size)
  {
    seq(CeilDiv(|arr|, size), i requires 0 <= i < CeilDiv(|arr|, size) =>
      ChunkStartInside(|arr|, size, i);
      Slice(arr, i * size, size))
  }

  function Flatten(chunks: seq<seq<string>>): seq<string> {
    if chunks == [] then [] else chunks[0] + Flatten(chunks[1..])
  }

  /** A list no longer than `size` is a single chunk. */
  lemma ChunkedSingle(arr: seq<string>, size: nat)
    requires 0 < |arr| <= size
    ensures Chunked(arr, size) == [arr]
  {
    var chunks := Chunked(arr, size);
    assert chunks[0] == Slice(arr, 0, size);
    assert arr[0..] == arr[0..|arr|] == arr;
  }

  /** Slicing after the first `size` elements is slicing further along. */
  lemma SliceShift(arr: seq<string>, size: nat, lo: nat)
    requires size <= |arr| && lo <= |arr| - size
    ensures Slice(arr, lo + size, size) == Slice(arr[size..], lo, size)
  {
    var tail := arr[size..];
    if lo + size + size <= |arr| {
      assert arr[lo + size..lo + size + size] == tail[lo..lo + size];
    } else {
      assert arr[lo + size..] == tail[lo..];
    }
  }

  /** Chunk `i` is the slice of `size` elements from `i * size`. */
  lemma ChunkAt(arr: seq<string>, size: nat, i: nat)
    requires size > 0 && i < CeilDiv(|arr|, size)
    ensures i * size < |arr| && Chunked(arr, size)[i] == Slice(arr, i * size, size)
  {
    ChunkStartInside(|arr|, size, i);
  }

  /** Chunk `i + 1` of a list is chunk `i` of the list without its first
      `size` elements. */
  lemma ChunkShift(arr: seq<string>, size: nat, i: nat)
    requires size > 0 && |arr| > size && i < CeilDiv(|arr| - size, size)
    ensures i + 1 < CeilDiv(|arr|, size)
    ensures Chunked(arr, size)[i + 1] == Chunked(arr[size..], size)[i]
  {
    assert CeilDiv(|arr|, size) == 1 + CeilDiv(|arr| - size, size);
    var lo := i * size;
    ChunkStartInside(|arr| - size, size, i);
    SliceShift(arr, size, lo);
    assert (i + 1) * size == lo + size;
    ChunkAt(arr, size, i + 1);
    ChunkAt(arr[size..], size, i);
  }

  /** A list longer than `size` is its first `size` elements followed by the
      chunks of what follows. */
  lemma ChunkedSplit(arr: seq<string>, size: nat)
    requires size > 0 && |arr| > size
    ensures Chunked(arr, size) == [arr[..size]] + Chunked(arr[size..], size)
  {
    var chunks := Chunked(arr, size);
    var rest := Chunked(arr[size..], size);
    assert |chunks| == |rest| + 1;
    assert chunks[0] == arr[..size];
    forall i | 0 <= i < |rest|
      ensures chunks[i + 1] == rest[i]
    {
      ChunkShift(arr, size, i);
    }
  }

  /** Concatenating the chunks in order gives back the input. */
  lemma {:induction false} ChunkedFlatten(arr: seq<string>, size: nat)
    requires size > 0
    ensures Flatten(Chunked(arr, size)) == arr
    decreases |arr|
  {
    if |arr| == 0 {
      assert CeilDiv(0, size) == 0;
    } else {
      if |arr| > size {
        ChunkedSplit(arr, size);
        ChunkedFlatten(arr[size..], size);
        var chunks := Chunked(arr, size);
        assert chunks[1..] == Chunked(arr[size..], size);
        assert arr == arr[..size] + arr[size..];
      } else {
        ChunkedSingle(arr, size);
        assert Chunked(arr, size)[1..] == [];
      }
    }
  }

  /** No chunk is empty or longer than `size`, and every chunk but the last
      has exactly `size` elements. */
  lemma ChunkedSizes(arr: seq<string>, size: nat)
    requires size > 0
    ensures var chunks := Chunked(arr, size);
      && (forall i :: 0 <= i < |chunks| ==> 0 < |chunks[i]| <= size)
      && (forall i :: 0 <= i < |chunks| - 1 ==> |chunks[i]| == size)
  {
    var chunks := Chunked(arr, size);
    forall i | 0 <= i < |chunks|
      ensures 0 < |chunks[i]| <= size
      ensures i < |chunks| - 1 ==> |chunks[i]| == size
    {
      ChunkStartInside(|arr|, size, i);
      if i < |chunks| - 1 {
        ChunkStartInside(|arr|, size, i + 1);
        assert (i + 1) * size == i * size + size;
      }
    }
  }

  /** 250 users make chunks of 100, 100 and 50. */
  lemma ChunkedExample(arr: seq<string>)
    requires |arr| == 250
    ensures var chunks := Chunked(arr, ChunkSize);
      |chunks| == 3 && |chunks[0]| == 100 && |chunks[1]| == 100 && |chunks[2]| == 50
  {
    assert CeilDiv(250, 100) == 3;
  }

  /** An empty list gives no chunks. */
  lemma ChunkedEmpty(size: nat)
    requires size > 0
    ensures Chunked([], size) == []
  {
    assert CeilDiv(0, size) == 0;
  }

  datatype Priority = Low | Medium | High

  datatype BulkInput = BulkInput(userUuids: seq<string>, concurrencyGroup: string)

  /** A child job dispatched without waiting for it. */
  datatype Dispatch = Dispatch(input: BulkInput, priority: Priority)

  /** `trigger-all`: a failed user listing raises before anything is
      dispatched; otherwise one bulk job per chunk of 100 users, in chunk
      order, each in the `cron` concurrency group at low priority. */
  method TriggerAll(users: Result<seq<string>, string>) returns (dispatched: seq<Dispatch>, raised: bool)
    ensures raised <==> users.Failure?
    ensures raised ==> dispatched == []
    ensures users.Success? ==>
      var chunks := Chunked(users.value, ChunkSize);
      && |dispatched| == |chunks|
      && forall i :: 0 <= i < |chunks| ==> dispatched[i] == Dispatch(BulkInput(chunks[i], CronGroup), Low)
  {
    if users.Failure? {
      return [], true;
    }
    var chunks := Chunked(users.value, ChunkSize);
    dispatched := [];
    for i := 0 to |chunks|
      invariant |dispatched| == i
      invariant forall j :: 0 <= j < i ==> dispatched[j] == Dispatch(BulkInput(chunks[j], CronGroup), Low)
    {
      dispatched := dispatched + [Dispatch(BulkInput(chunks[i], CronGroup), Low)];
    }
    raised := false;
  }

  /** Every user listed is in exactly the dispatched jobs, in order. */
  lemma TriggerAllCoversUsers(users: seq<string>, dispatched: seq<Dispatch>)
    requires var chunks := Chunked(users, ChunkSize);
      |dispatched| == |chunks| && forall i :: 0 <= i < |chunks| ==> dispatched[i] == Dispatch(BulkInput(chunks[i], CronGroup), Low)
    ensures Flatten(seq(|dispatched|, i requires 0 <= i < |dispatched| => dispatched[i].input.userUuids)) == users
  {
    var chunks := Chunked(users, ChunkSize);
    assert seq(|dispatched|, i requires 0 <= i < |dispatched| => dispatched[i].input.userUuids) == chunks;
    ChunkedFlatten(users, ChunkSize);
  }

  /** What the bulk job logs for one user: the crawl returned (whatever its
      success flag), or it raised and the error was caught. */
  datatype Attempt = Refreshed(user: string) | Failed(user: string)

  function AttemptOf(user: string, result: AppleCrawl.CrawlResult): (a: Attempt)
    ensures a.user == user
    ensures a.Failed? <==> result.CrawlRaised?
  {
    if result.CrawlRaised? then Failed(user) else Refreshed(user)
  }

  /** `refreshAlbumBulkFn`: one crawl per user, in order; a crawl that raises
      is logged and the loop goes on with the next user; the job always
      reports success. `crawl` gives each user's crawl outcome. */
  method RefreshAlbumBulk(input: BulkInput, crawl: string -> AppleCrawl.CrawlResult)
    returns (success: bool, attempts: seq<Attempt>)
    ensures success
    ensures |attempts| == |input.userUuids|
    ensures forall i :: 0 <= i < |attempts| ==> attempts[i] == AttemptOf(input.userUuids[i], crawl(input.userUuids[i]))
  {
    attempts := [];
    for i := 0 to |input.userUuids|
      invariant |attempts| == i
      invariant forall j :: 0 <= j < i ==> attempts[j] == AttemptOf(input.userUuids[j], crawl(input.userUuids[j]))
    {
      var user := input.userUuids[i];
      var result := crawl(user);
      if result.CrawlRaised? {
        attempts := attempts + [Failed(user)];
      } else {
        attempts := attempts + [Refreshed(user)];
      }
    }
    success := true;
  }

  /** `refreshAlbumFn`: the single-user job returns the crawl's result as is. */
  method RefreshAlbum(record: AppleCrawl.AlbumRecord, settings: Result<AppleCrawl.AppleSettings, string>,
                      stored: Result<Option<string>, string>, reply: AppleCrawl.FetchReply)
    returns (result: AppleCrawl.CrawlResult)
    modifies record
    ensures var c := AppleCrawl.CrawlPlan(settings, stored, reply);
      && result == c.result
      && record.writes == old(record.writes) + c.writes
      && record.State() == AppleCrawl.ApplyAll(old(record.State()), c.writes)
  {
    var request;
    result, request := AppleCrawl.CrawlAlbum(record, settings, stored, reply);
  }
}
