/**
  The offline bulk downloader, the click handler of `downloadOfflineBtn`
  (script.js:363-437): for every selected chapter, in selection order, and
  every verse 1..numAyat, fetch the recording unconditionally, save it when
  the response is OK, and count every attempt whose fetch did not throw.
*/
module Bulk {
  import opened Wrappers
  import opened Bytes
  import opened AyahKey
  import opened AyahStore
  import opened AudioSource

  /** One download attempt: a chapter and a verse. */
  type Attempt = (nat, nat)

  /** The attempts for one chapter: verses 1..n, in order. */
  function SurahAttempts(surah: nat, n: nat): seq<Attempt>
    decreases n
  {
    if n == 0 then [] else SurahAttempts(surah, n - 1) + [(surah, n)]
  }

  /** The verse count of a chapter, or `None` when the metadata query returns no row. */
  type VerseCounts = nat -> Option<nat>

  /** All attempts, chapter by chapter in selection order; chapters without a row are skipped. */
  function Attempts(selected: seq<nat>, numAyat: VerseCounts): seq<Attempt>
    decreases |selected|
  {
    if selected == [] then []
    else
      var last := selected[|selected| - 1];
      Attempts(selected[..|selected| - 1], numAyat)
      + (match numAyat(last) case None => [] case Some(n) => SurahAttempts(last, n))
  }

  /** `totalAyahs`: the sum of the verse counts of the selected chapters that have a row. */
  function TotalAyahs(selected: seq<nat>, numAyat: VerseCounts): nat
    decreases |selected|
  {
    if selected == [] then 0
    else
      var last := selected[|selected| - 1];
      TotalAyahs(selected[..|selected| - 1], numAyat)
      + (match numAyat(last) case None => 0 case Some(n) => n)
  }

  /** The state the attempts change: the store content, `downloadedAyahs`, and the URLs fetched. */
  datatype BulkState = BulkState(records: Records, downloaded: nat, fetched: seq<string>)

  /** The URL of an attempt. */
  function UrlOf(a: Attempt): string
  {
    AudioUrl(a.0, a.1)
  }

  /** One attempt: a thrown fetch only records the call; a response is counted, and saved when OK. */
  function Apply(st: BulkState, fetch: string -> FetchOutcome, a: Attempt): BulkState
  {
    var url := UrlOf(a);
    match fetch(url)
    case NetworkError => st.(fetched := st.fetched + [url])
    case Response(ok, body) =>
      BulkState(if ok then Upsert(st.records, a.0, a.1, body) else st.records, st.downloaded + 1, st.fetched + [url])
  }

  /** The attempts applied in order. */
  function Run(st: BulkState, fetch: string -> FetchOutcome, attempts: seq<Attempt>): BulkState
    decreases |attempts|
  {
    if attempts == [] then st
    else Apply(Run(st, fetch, attempts[..|attempts| - 1]), fetch, attempts[|attempts| - 1])
  }

  /** How many of the attempts throw in `fetch`. */
  function Thrown(fetch: string -> FetchOutcome, attempts: seq<Attempt>): nat
    decreases |attempts|
  {
    if attempts == [] then 0
    else Thrown(fetch, attempts[..|attempts| - 1]) + (if fetch(UrlOf(attempts[|attempts| - 1])).NetworkError? then 1 else 0)
  }

  /** The keys of the attempts whose response was OK. */
  function OkKeys(fetch: string -> FetchOutcome, attempts: seq<Attempt>): set<string>
    decreases |attempts|
  {
    if attempts == [] then {}
    else
      var a := attempts[|attempts| - 1];
      OkKeys(fetch, attempts[..|attempts| - 1])
      + (if fetch(UrlOf(a)).Response? && fetch(UrlOf(a)).ok then {Key(a.0, a.1)} else {})
  }

  /** The attempts for a chapter are its verses 1..n, in ascending order. */
  lemma {:induction false} SurahAttemptsInOrder(surah: nat, n: nat)
    ensures |SurahAttempts(surah, n)| == n
    ensures forall j :: 0 <= j < n ==> SurahAttempts(surah, n)[j] == (surah, j + 1)
    decreases n
  {
    if n > 0 {
      SurahAttemptsInOrder(surah, n - 1);
    }
  }

  /** `totalAyahs` is exactly the number of attempts the handler makes. */
  lemma {:induction false} AttemptsCount(selected: seq<nat>, numAyat: VerseCounts)
    ensures |Attempts(selected, numAyat)| == TotalAyahs(selected, numAyat)
    decreases |selected|
  {
    if selected != [] {
      var last := selected[|selected| - 1];
      AttemptsCount(selected[..|selected| - 1], numAyat);
      if numAyat(last).Some? {
        SurahAttemptsInOrder(last, numAyat(last).value);
      }
    }
  }

  /** Appending one chapter's attempts to the selection appends them to the attempts. */
  lemma AttemptsSnoc(selected: seq<nat>, surah: nat, numAyat: VerseCounts)
    ensures Attempts(selected + [surah], numAyat) ==
      Attempts(selected, numAyat) + (match numAyat(surah) case None => [] case Some(n) => SurahAttempts(surah, n))
  {
    assert (selected + [surah])[..|selected|] == selected;
  }

  /** Running one more attempt applies it to the state so far. */
  lemma RunSnoc(st: BulkState, fetch: string -> FetchOutcome, attempts: seq<Attempt>, a: Attempt)
    ensures Run(st, fetch, attempts + [a]) == Apply(Run(st, fetch, attempts), fetch, a)
  {
    assert (attempts + [a])[..|attempts|] == attempts;
  }

  /**
    Every attempt fetches, whatever the store holds: the fetched URLs are
    those of the attempts, in order.
  */
  lemma {:induction false} RunFetchesAll(st: BulkState, fetch: string -> FetchOutcome, attempts: seq<Attempt>)
    ensures Run(st, fetch, attempts).fetched == st.fetched + seq(|attempts|, i requires 0 <= i < |attempts| => UrlOf(attempts[i]))
    decreases |attempts|
  {
    if attempts != [] {
      var init := attempts[..|attempts| - 1];
      RunFetchesAll(st, fetch, init);
    }
  }

  /** The counter advances once per attempt whose fetch did not throw, OK or not. */
  lemma {:induction false} RunCounts(st: BulkState, fetch: string -> FetchOutcome, attempts: seq<Attempt>)
    ensures Thrown(fetch, attempts) <= |attempts|
    ensures Run(st, fetch, attempts).downloaded == st.downloaded + |attempts| - Thrown(fetch, attempts)
    decreases |attempts|
  {
    if attempts != [] {
      RunCounts(st, fetch, attempts[..|attempts| - 1]);
    }
  }

  /**
    At the end of a handler run from a zero counter, `downloadedAyahs` is at
    most `totalAyahs`, and equal to it when no fetch threw.
  */
  lemma CounterBound(records: Records, fetch: string -> FetchOutcome, selected: seq<nat>, numAyat: VerseCounts)
    ensures Run(BulkState(records, 0, []), fetch, Attempts(selected, numAyat)).downloaded <= TotalAyahs(selected, numAyat)
    ensures Thrown(fetch, Attempts(selected, numAyat)) == 0 ==>
      Run(BulkState(records, 0, []), fetch, Attempts(selected, numAyat)).downloaded == TotalAyahs(selected, numAyat)
  {
    AttemptsCount(selected, numAyat);
    RunCounts(BulkState(records, 0, []), fetch, Attempts(selected, numAyat));
  }

  /** The store stays keyed by `ayahId`. */
  lemma {:induction false} RunWellKeyed(st: BulkState, fetch: string -> FetchOutcome, attempts: seq<Attempt>)
    requires WellKeyed(st.records)
    ensures WellKeyed(Run(st, fetch, attempts).records)
    decreases |attempts|
  {
    if attempts != [] {
      var a := attempts[|attempts| - 1];
      var mid := Run(st, fetch, attempts[..|attempts| - 1]);
      RunWellKeyed(st, fetch, attempts[..|attempts| - 1]);
      if fetch(UrlOf(a)).Response? && fetch(UrlOf(a)).ok {
        UpsertWellKeyed(mid.records, a.0, a.1, fetch(UrlOf(a)).body);
      }
    }
  }

  /** Only OK responses write: a key no attempt saved keeps its old record, or stays absent. */
  lemma {:induction false} RunWritesOnlyOk(st: BulkState, fetch: string -> FetchOutcome, attempts: seq<Attempt>, k: string)
    requires k !in OkKeys(fetch, attempts)
    ensures k in Run(st, fetch, attempts).records <==> k in st.records
    ensures k in st.records ==> Run(st, fetch, attempts).records[k] == st.records[k]
    decreases |attempts|
  {
    if attempts != [] {
      RunWritesOnlyOk(st, fetch, attempts[..|attempts| - 1], k);
    }
  }

  /**
    An OK response is saved: after the run, `get` of that verse returns its
    body, unless a later attempt of the same verse overwrote it.
  */
  lemma {:induction false} RunSavesOk(st: BulkState, fetch: string -> FetchOutcome, attempts: seq<Attempt>, i: nat)
    requires i < |attempts|
    requires fetch(UrlOf(attempts[i])).Response? && fetch(UrlOf(attempts[i])).ok
    requires forall j :: i < j < |attempts| ==> attempts[j] != attempts[i]
    requires forall j :: 0 <= j < |attempts| ==> attempts[j].0 < 1000 && attempts[j].1 < 1000
    ensures Lookup(Run(st, fetch, attempts).records, attempts[i].0, attempts[i].1) == Some(fetch(UrlOf(attempts[i])).body)
    decreases |attempts|
  {
    var n := |attempts| - 1;
    var init := attempts[..n];
    var a := attempts[n];
    var mid := Run(st, fetch, init);
    if i == n {
      LookupAfterUpsert(mid.records, a.0, a.1, fetch(UrlOf(a)).body);
    } else {
      RunSavesOk(st, fetch, init, i);
      if fetch(UrlOf(a)).Response? && fetch(UrlOf(a)).ok {
        LookupOtherAfterUpsert(mid.records, a.0, a.1, fetch(UrlOf(a)).body, attempts[i].0, attempts[i].1);
      }
    }
  }

  /** Running two lists of attempts one after the other is running their concatenation. */
  lemma {:induction false} RunConcat(st: BulkState, fetch: string -> FetchOutcome, xs: seq<Attempt>, ys: seq<Attempt>)
    ensures Run(st, fetch, xs + ys) == Run(Run(st, fetch, xs), fetch, ys)
    decreases |ys|
  {
    if ys == [] {
      assert xs + ys == xs;
    } else {
      var init, y := ys[..|ys| - 1], ys[|ys| - 1];
      assert ys == init + [y];
      assert xs + ys == (xs + init) + [y];
      RunConcat(st, fetch, xs, init);
      RunSnoc(st, fetch, xs + init, y);
      RunSnoc(Run(st, fetch, xs), fetch, init, y);
    }
  }

  /** How the handler ended. */
  datatype BulkOutcome = Offline | NothingSelected | Finished(totalAyahs: nat)

  /** The first loop of the handler (script.js:385-392): `totalAyahs`. */
  method CountAyahs(selected: seq<nat>, numAyat: VerseCounts) returns (totalAyahs: nat)
    ensures totalAyahs == TotalAyahs(selected, numAyat)
    ensures totalAyahs == |Attempts(selected, numAyat)|
  {
    totalAyahs := 0;
    for i := 0 to |selected|
      invariant totalAyahs == TotalAyahs(selected[..i], numAyat)
    {
      assert selected[..i + 1] == selected[..i] + [selected[i]];
      assert (selected[..i] + [selected[i]])[..i] == selected[..i];
      var result := numAyat(selected[i]);
      if result.Some? {
        totalAyahs := totalAyahs + result.value;
      }
    }
    assert selected[..|selected|] == selected;
    AttemptsCount(selected, numAyat);
  }

  /** The body of the verse loop (script.js:402-423): one attempt, as `Apply` describes it. */
  method DownloadAyah(store: Store, fetch: string -> FetchOutcome, surahNum: nat, ayah: nat, downloaded0: nat, fetched0: seq<string>)
    returns (downloaded: nat, fetched: seq<string>)
    requires store.Valid()
    modifies store
    ensures store.Valid()
    ensures BulkState(store.records, downloaded, fetched)
      == Apply(BulkState(old(store.records), downloaded0, fetched0), fetch, (surahNum, ayah))
  {
    downloaded, fetched := downloaded0, fetched0;
    var audioUrl := AudioUrl(surahNum, ayah);
    var response := fetch(audioUrl);
    fetched := fetched + [audioUrl];
    if response.Response? {
      if response.ok {
        store.Put(surahNum, ayah, response.body);
      }
      downloaded := downloaded + 1;
    }
  }

  /** The verse loop for one chapter (script.js:401-424): verses 1..numAyat, each fetched. */
  method DownloadSurah(store: Store, fetch: string -> FetchOutcome, surahNum: nat, numAyat: nat, downloaded0: nat, fetched0: seq<string>)
    returns (downloaded: nat, fetched: seq<string>)
    requires store.Valid()
    modifies store
    ensures store.Valid()
    ensures BulkState(store.records, downloaded, fetched)
      == Run(BulkState(old(store.records), downloaded0, fetched0), fetch, SurahAttempts(surahNum, numAyat))
  {
    ghost var start := BulkState(store.records, downloaded0, fetched0);
    downloaded, fetched := downloaded0, fetched0;
    var ayah := 1;
    while ayah <= numAyat
      invariant 1 <= ayah <= numAyat + 1
      invariant store.Valid()
      invariant BulkState(store.records, downloaded, fetched) == Run(start, fetch, SurahAttempts(surahNum, ayah - 1))
    {
      RunSnoc(start, fetch, SurahAttempts(surahNum, ayah - 1), (surahNum, ayah));
      downloaded, fetched := DownloadAyah(store, fetch, surahNum, ayah, downloaded, fetched);
      ayah := ayah + 1;
    }
  }

  /**
    The handler (script.js:363-437). Offline or with an empty selection it
    returns before any fetch; otherwise it sums the verse counts, then
    makes every attempt in order, and the store, the counter and the
    fetched URLs are those of `Run` over `Attempts`.
  */
  method DownloadOffline(store: Store, online: bool, fetch: string -> FetchOutcome, numAyat: VerseCounts, selected: seq<nat>)
    returns (outcome: BulkOutcome, downloaded: nat, fetched: seq<string>)
    requires store.Valid()
    modifies store
    ensures store.Valid()
    ensures !online ==> outcome == Offline && fetched == [] && store.records == old(store.records)
    ensures online && selected == [] ==> outcome == NothingSelected && fetched == [] && store.records == old(store.records)
    ensures online && selected != [] ==>
      && outcome == Finished(TotalAyahs(selected, numAyat))
      && BulkState(store.records, downloaded, fetched) == Run(BulkState(old(store.records), 0, []), fetch, Attempts(selected, numAyat))
  {
    downloaded, fetched := 0, [];
    if !online {
      return Offline, downloaded, fetched;
    }
    if |selected| == 0 {
      return NothingSelected, downloaded, fetched;
    }

    var totalAyahs := CountAyahs(selected, numAyat);

    ghost var start := BulkState(store.records, 0, []);
    for i := 0 to |selected|
      invariant store.Valid()
      invariant BulkState(store.records, downloaded, fetched) == Run(start, fetch, Attempts(selected[..i], numAyat))
    {
      var surahNum := selected[i];
      ghost var before := Attempts(selected[..i], numAyat);
      assert selected[..i + 1] == selected[..i] + [surahNum];
      AttemptsSnoc(selected[..i], surahNum, numAyat);
      var result := numAyat(surahNum);
      if result.Some? {
        RunConcat(start, fetch, before, SurahAttempts(surahNum, result.value));
        downloaded, fetched := DownloadSurah(store, fetch, surahNum, result.value, downloaded, fetched);
      } else {
        assert before + [] == before;
      }
    }
    assert selected[..|selected|] == selected;
    outcome := Finished(totalAyahs);
  }
}
