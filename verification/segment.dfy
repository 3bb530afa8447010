/**
  The verse loop of `downloadAudioSegment` (script.js:467-495) and the rest
  of that handler: each verse of the range is taken from the store when
  present, otherwise fetched (unless offline), decoded, and appended; the
  decoded buffers are merged and encoded as WAVE. This path only reads the
  store: no method here has the store in its `modifies` clause.
*/
module Segment {
  import opened Wrappers
  import opened Bytes
  import opened AyahKey
  import opened AyahStore
  import opened AudioSource
  import opened AudioMerge
  import opened Wave

  /**
    The platform around the loop: the store content, `navigator.onLine`,
    `fetch`, `decodeAudioData`. The specification functions below work on
    values, so they see the store through `records`, a copy of its content;
    the methods, which read the `Store` object itself, require that copy to
    equal `store.records` when the call starts. The segment path never writes
    the store, and each handler is modelled as running alone (no other handler
    writes the store between the awaits of one call), so the copy stays equal
    for the whole call.
  */
  datatype Env = Env(
    records: Records,
    online: bool,
    fetch: string -> FetchOutcome,
    decode: Bytes -> Option<AudioBuffer<real>>)

  /** Why the handler stopped, and at which verse. */
  datatype SegmentError =
    | MissingSelection
    | DatabaseNotLoaded
    | AtVerse(ayah: nat, cause: VerseFailure)
    | ChannelMissing
    | MergeFailed(reason: MergeError)

  /** What went wrong with one verse. */
  datatype VerseFailure = Offline | NetworkFailure | HttpError | DecodeFailure

  /** Where one verse's bytes come from. */
  datatype Resolution = Cached(data: Bytes) | Downloaded(data: Bytes) | Unresolved(error: SegmentError)

  /** Cache first; on a miss, stop when offline, otherwise fetch and accept only an OK response. */
  function Resolve(env: Env, surah: nat, ayah: nat): Resolution
  {
    match Lookup(env.records, surah, ayah)
    case Some(data) => Cached(data)
    case None =>
      if !env.online then Unresolved(AtVerse(ayah, Offline))
      else match env.fetch(AudioUrl(surah, ayah))
        case NetworkError => Unresolved(AtVerse(ayah, NetworkFailure))
        case Response(ok, body) => if ok then Downloaded(body) else Unresolved(AtVerse(ayah, HttpError))
  }

  /**
    A cache hit is served from the store and never fetched; a miss is an
    offline error when offline; otherwise only an OK response yields data.
  */
  lemma ResolveCases(env: Env, surah: nat, ayah: nat)
    ensures var r := Resolve(env, surah, ayah);
      && (r.Cached? <==> Key(surah, ayah) in env.records)
      && (r.Cached? ==> r.data == env.records[Key(surah, ayah)].data)
      && (r == Unresolved(AtVerse(ayah, Offline)) <==> Key(surah, ayah) !in env.records && !env.online)
      && (r.Downloaded? <==> Key(surah, ayah) !in env.records && env.online &&
                             env.fetch(AudioUrl(surah, ayah)).Response? && env.fetch(AudioUrl(surah, ayah)).ok)
      && (r.Downloaded? ==> r.data == env.fetch(AudioUrl(surah, ayah)).body)
      && (r.Unresolved? ==> r.error.AtVerse? && r.error.ayah == ayah && r.error.cause != DecodeFailure)
  {
  }

  /** Whether resolving this verse calls `fetch`: a cache miss while online. */
  predicate Fetches(env: Env, surah: nat, ayah: nat)
  {
    Key(surah, ayah) !in env.records && env.online
  }

  /** The state of the loop: buffers collected, URLs fetched, and the error that ended it, if any. */
  datatype Progress = Progress(buffers: seq<AudioBuffer<real>>, fetched: seq<string>, failure: Option<SegmentError>)

  /** One iteration for verse `ayah`. */
  function Step(env: Env, surah: nat, p: Progress, ayah: nat): Progress
  {
    var fetched := if Fetches(env, surah, ayah) then p.fetched + [AudioUrl(surah, ayah)] else p.fetched;
    var r := Resolve(env, surah, ayah);
    if r.Unresolved? then Progress(p.buffers, fetched, Some(r.error))
    else match env.decode(r.data)
      case None => Progress(p.buffers, fetched, Some(AtVerse(ayah, DecodeFailure)))
      case Some(b) => Progress(p.buffers + [b], fetched, None)
  }

  /** What one iteration does to the loop state. */
  lemma StepFacts(env: Env, surah: nat, p: Progress, ayah: nat)
    ensures Step(env, surah, p, ayah).fetched ==
      p.fetched + (if Fetches(env, surah, ayah) then [AudioUrl(surah, ayah)] else [])
    ensures Step(env, surah, p, ayah).failure.None? <==> Decoded(env, surah, ayah).Some?
    ensures Step(env, surah, p, ayah).failure.None? ==>
      Step(env, surah, p, ayah).buffers == p.buffers + [Decoded(env, surah, ayah).value]
    ensures Step(env, surah, p, ayah).failure.Some? ==>
      Step(env, surah, p, ayah).failure.value.AtVerse? && Step(env, surah, p, ayah).failure.value.ayah == ayah
  {
  }

  /** The loop run over verses `start` to `stop - 1`, stopping at the first error. */
  function Collect(env: Env, surah: nat, start: nat, stop: nat): Progress
    decreases stop
  {
    if stop <= start then Progress([], [], None)
    else
      var p := Collect(env, surah, start, stop - 1);
      if p.failure.Some? then p else Step(env, surah, p, stop - 1)
  }

  /** The buffer the loop appends for a verse: its resolved bytes, decoded. */
  function Decoded(env: Env, surah: nat, ayah: nat): Option<AudioBuffer<real>>
  {
    var r := Resolve(env, surah, ayah);
    if r.Unresolved? then None else env.decode(r.data)
  }

  /** The URLs of the verses in `[lo, hi)` that miss the cache, in ascending verse order. */
  function MissUrls(records: Records, surah: nat, lo: nat, hi: nat): seq<string>
    decreases hi
  {
    if hi <= lo then []
    else MissUrls(records, surah, lo, hi - 1)
         + (if Key(surah, hi - 1) !in records then [AudioUrl(surah, hi - 1)] else [])
  }

  /** One more verse: the loop stops, or takes one more step. */
  lemma CollectNext(env: Env, surah: nat, start: nat, a: nat)
    requires start <= a
    ensures Collect(env, surah, start, a + 1) ==
      if Collect(env, surah, start, a).failure.Some? then Collect(env, surah, start, a)
      else Step(env, surah, Collect(env, surah, start, a), a)
  {
  }

  /** Once the loop has stopped on an error, later verses change nothing. */
  lemma {:induction false} CollectStops(env: Env, surah: nat, start: nat, k: nat, m: nat)
    requires k <= m
    requires Collect(env, surah, start, k).failure.Some?
    ensures Collect(env, surah, start, m) == Collect(env, surah, start, k)
    decreases m
  {
    if m > k {
      CollectStops(env, surah, start, k, m - 1);
      var p := Collect(env, surah, start, m - 1);
      assert p.failure.Some?;
      assert Collect(env, surah, start, m) == p;
    }
  }

  /** `bs` holds, in order, the decoded buffers of the verses from `start` on. */
  predicate InOrder(env: Env, surah: nat, start: nat, bs: seq<AudioBuffer<real>>)
  {
    forall a :: start <= a < start + |bs| ==> Decoded(env, surah, a) == Some(bs[a - start])
  }

  /**
    A run that completes holds one buffer per verse, in ascending verse order,
    each the decoding of that verse's cached or fetched bytes (so every verse
    was a cache hit or fetched with an OK response).
  */
  lemma {:induction false} CollectInOrder(env: Env, surah: nat, start: nat, stop: nat)
    requires start <= stop
    requires Collect(env, surah, start, stop).failure.None?
    ensures |Collect(env, surah, start, stop).buffers| == stop - start
    ensures InOrder(env, surah, start, Collect(env, surah, start, stop).buffers)
    decreases stop
  {
    if stop > start {
      var a := stop - 1;
      CollectAppends(env, surah, start, a);
      CollectInOrder(env, surah, start, a);
      InOrderAppend(env, surah, start, Collect(env, surah, start, a).buffers, Decoded(env, surah, a).value);
    }
  }

  /** A loop that got past verse `a` got past every earlier verse and appended that verse's buffer. */
  lemma CollectAppends(env: Env, surah: nat, start: nat, a: nat)
    requires start <= a
    requires Collect(env, surah, start, a + 1).failure.None?
    ensures Collect(env, surah, start, a).failure.None?
    ensures Decoded(env, surah, a).Some?
    ensures Collect(env, surah, start, a + 1).buffers == Collect(env, surah, start, a).buffers + [Decoded(env, surah, a).value]
  {
    var p := Collect(env, surah, start, a);
    CollectNext(env, surah, start, a);
    StepFacts(env, surah, p, a);
  }

  /** Extending an in-order list of buffers by the next verse's buffer keeps it in order. */
  lemma InOrderAppend(env: Env, surah: nat, start: nat, bs: seq<AudioBuffer<real>>, b: AudioBuffer<real>)
    requires InOrder(env, surah, start, bs)
    requires Decoded(env, surah, start + |bs|) == Some(b)
    ensures InOrder(env, surah, start, bs + [b])
  {
  }

  /**
    `fetch` is called exactly for the verses that miss the cache, in
    ascending order, up to the verse where the loop stopped; a cache hit is
    never fetched, and offline nothing is.
  */
  lemma {:induction false} CollectFetchesOnlyMisses(env: Env, surah: nat, start: nat, stop: nat)
    requires start <= stop
    ensures var p := Collect(env, surah, start, stop);
      && (!env.online ==> p.fetched == [])
      && (env.online && p.failure.None? ==> p.fetched == MissUrls(env.records, surah, start, stop))
      && (env.online && p.failure.Some? ==>
            p.failure.value.AtVerse? && start <= p.failure.value.ayah < stop &&
            p.fetched == MissUrls(env.records, surah, start, p.failure.value.ayah + 1))
    decreases stop
  {
    if stop > start {
      CollectFetchesOnlyMisses(env, surah, start, stop - 1);
      var p := Collect(env, surah, start, stop - 1);
      CollectNext(env, surah, start, stop - 1);
      StepFacts(env, surah, p, stop - 1);
    }
  }

  /** Offline, the loop stops at the first verse missing from the cache, without fetching it. */
  lemma {:induction false} CollectOfflineStopsAtMiss(env: Env, surah: nat, start: nat, stop: nat)
    requires start <= stop && !env.online
    requires var f := Collect(env, surah, start, stop).failure; f.Some? && f.value.AtVerse? && f.value.cause == Offline
    ensures var a := Collect(env, surah, start, stop).failure.value.ayah;
      start <= a < stop && Key(surah, a) !in env.records &&
      forall b :: start <= b < a ==> Key(surah, b) in env.records
    decreases stop
  {
    if stop > start {
      var p := Collect(env, surah, start, stop - 1);
      CollectNext(env, surah, start, stop - 1);
      if p.failure.Some? {
        CollectOfflineStopsAtMiss(env, surah, start, stop - 1);
      } else {
        var a := stop - 1;
        CollectInOrder(env, surah, start, a);
        ResolveCases(env, surah, a);
        assert Resolve(env, surah, a) == Unresolved(AtVerse(a, Offline));
        forall b | start <= b < a ensures Key(surah, b) in env.records {
          assert Decoded(env, surah, b).Some?;
          ResolveCases(env, surah, b);
        }
      }
    }
  }

  /** One past the last verse the loop visits for the inclusive range `start`..`end`. */
  function Stop(start: nat, end: nat): (stop: nat)
    ensures stop - start == if end < start then 0 else end - start + 1
  {
    if end < start then start else end + 1
  }

  /**
    The body of one iteration up to decoding (script.js:471-491): the store
    first; on a miss, the offline error, or `fetch` with only an OK response
    accepted. `didFetch` tells whether `fetch` was called.
  */
  method ResolveVerse(store: Store, env: Env, surah: nat, ayah: nat) returns (r: Resolution, didFetch: bool)
    requires env.records == store.records
    ensures r == Resolve(env, surah, ayah)
    ensures didFetch == Fetches(env, surah, ayah)
  {
    var cached := store.Get(surah, ayah);
    didFetch := false;
    if cached.Some? {
      return Cached(cached.value), didFetch;
    }
    if !env.online {
      return Unresolved(AtVerse(ayah, Offline)), didFetch;
    }
    didFetch := true;
    var response := env.fetch(AudioUrl(surah, ayah));
    if response.NetworkError? {
      return Unresolved(AtVerse(ayah, NetworkFailure)), didFetch;
    }
    if !response.ok {
      return Unresolved(AtVerse(ayah, HttpError)), didFetch;
    }
    return Downloaded(response.body), didFetch;
  }

  /**
    The loop of script.js:467-495 over verses `start`..`end`: the store is
    read, never written, and the result is that of `Collect`.
  */
  method CollectSegment(store: Store, env: Env, surah: nat, start: nat, end: nat)
    returns (buffers: seq<AudioBuffer<real>>, fetched: seq<string>, failure: Option<SegmentError>)
    requires env.records == store.records
    ensures Progress(buffers, fetched, failure) == Collect(env, surah, start, Stop(start, end))
  {
    var stop := Stop(start, end);
    buffers, fetched, failure := [], [], None;
    var ayah := start;
    while ayah <= end
      invariant start <= ayah <= stop
      invariant Progress(buffers, fetched, failure) == Collect(env, surah, start, ayah)
      invariant failure.None?
    {
      CollectNext(env, surah, start, ayah);
      ghost var before := Progress(buffers, fetched, failure);
      var resolved, didFetch := ResolveVerse(store, env, surah, ayah);
      if didFetch {
        fetched := fetched + [AudioUrl(surah, ayah)];
      }
      if resolved.Unresolved? {
        failure := Some(resolved.error);
        assert Progress(buffers, fetched, failure) == Step(env, surah, before, ayah);
        CollectStops(env, surah, start, ayah + 1, stop);
        return;
      }
      var decoded := env.decode(resolved.data);
      if decoded.None? {
        failure := Some(AtVerse(ayah, DecodeFailure));
        assert Progress(buffers, fetched, failure) == Step(env, surah, before, ayah);
        CollectStops(env, surah, start, ayah + 1, stop);
        return;
      }
      buffers := buffers + [decoded.value];
      assert Progress(buffers, fetched, failure) == Step(env, surah, before, ayah);
      ayah := ayah + 1;
    }
  }

  /**
    `downloadAudioSegment()` (script.js:439-524): missing fields and an
    unloaded verse database end it before anything is fetched; otherwise the
    verse loop runs, and a complete run is merged and encoded. A missing
    selection value (`parseInt` giving `NaN` or 0) is passed as 0. Every
    error the source reports, whether returned early or thrown and caught,
    is a `Failure`. The result is the WAVE file offered for download.
  */
  method DownloadSegment(store: Store, env: Env, dbReady: bool, surah: nat, start: nat, end: nat)
    returns (r: Result<seq<byte>, SegmentError>, fetched: seq<string>)
    requires env.records == store.records
    requires forall data :: env.decode(data).Some? ==> WellFormed(env.decode(data).value)
    ensures surah == 0 || start == 0 || end == 0 ==> r == Failure(MissingSelection) && fetched == []
    ensures surah != 0 && start != 0 && end != 0 && !dbReady ==> r == Failure(DatabaseNotLoaded) && fetched == []
    ensures surah != 0 && start != 0 && end != 0 && dbReady ==>
      var p := Collect(env, surah, start, Stop(start, end));
      && fetched == p.fetched
      && (p.failure.Some? ==> r == Failure(p.failure.value))
      && (p.failure.None? && end < start ==> r == Failure(MergeFailed(NothingToMerge)))
      && (r.Success? <==> p.failure.None? && Mergeable(p.buffers))
      && (r.Success? ==> Encodes(r.value, Merged(p.buffers)))
  {
    fetched := [];
    if surah == 0 || start == 0 || end == 0 {
      return Failure(MissingSelection), fetched;
    }
    if !dbReady {
      return Failure(DatabaseNotLoaded), fetched;
    }
    var buffers, failure;
    buffers, fetched, failure := CollectSegment(store, env, surah, start, end);
    if failure.Some? {
      return Failure(failure.value), fetched;
    }
    ghost var stop := Stop(start, end);
    CollectInOrder(env, surah, start, stop);
    assert forall k :: 0 <= k < |buffers| ==> WellFormed(buffers[k]) by {
      forall k | 0 <= k < |buffers| ensures WellFormed(buffers[k]) {
        assert Decoded(env, surah, start + k) == Some(buffers[k]);
      }
    }
    if |buffers| > 0 && exists k :: 0 <= k < |buffers| && |buffers[k].channels| < |buffers[0].channels| {
      // `getChannelData` of a channel the buffer lacks throws.
      return Failure(ChannelMissing), fetched;
    }
    var merged := Merge(buffers);
    if merged.Failure? {
      assert merged.error == NothingToMerge;
      return Failure(MergeFailed(merged.error)), fetched;
    }
    var wav := BufferToWave(merged.value);
    r := Success(wav);
  }
}
