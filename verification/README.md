# Offline Quran audio cache and segment assembly, in Dafny

This project models the core of `src/script.js` of the audio_subsection web
app. The app lets a listener pick a chapter (surah) and a range of verses
(ayat). It fetches one MP3 recording per verse from a fixed remote base URL,
or takes it from an IndexedDB cache, and decodes the recordings. It then
concatenates them sample by sample and encodes the result as a 16-bit PCM
WAVE file. A second path downloads whole chapters into the cache for
offline use.

The modules follow the parts of the program:

| file | module | models |
|---|---|---|
| `wrappers.dfy` | `Wrappers`, `Bytes` | `Option`/`Result`, bytes |
| `ayah_key.dfy` | `AyahKey` | the six-character `ayahId` key (`padStart(3, "0")` twice) |
| `ayah_store.dfy` | `AyahStore` | the object store `ayahs` as a class with a map field, and its six operations |
| `audio_source.dfy` | `AudioSource` | `BASE_URL`, the per-verse URL, and what `fetch` can return |
| `merge.dfy` | `AudioMerge` | `AudioBuffer` and `mergeAudioBuffers` over a freshly allocated two-dimensional array |
| `wave.dfy` | `Wave` | `bufferToWave` and `writeString` over a byte array standing for the `DataView` |
| `segment.dfy` | `Segment` | `downloadAudioSegment`: the cache-or-fetch verse loop, then merge and encode |
| `bulk.dfy` | `Bulk` | the offline bulk downloader (`downloadOfflineBtn` click handler) |

The platform enters as parameters:
- the store's content;
- `navigator.onLine`, one boolean per call;
- `fetch`, a function from URL to a thrown error or a response with `ok` and a body;
- `decodeAudioData`, a function from bytes to an optional buffer;
- the per-chapter verse count from the metadata database, a function returning `None` when the query has no row.

Each loop in the source is a Dafny method with loop invariants. Each method is proved equal to a specification function:
- the verse loop against `Segment.Collect`;
- the bulk loops against `Bulk.Run` over `Bulk.Attempts`;
- the merge against `AudioMerge.Merged`;
- the WAVE writer against `Wave.Encodes`.

The lemmas state what the program promises about those functions.

Where the code and a plain reading of the program's intent differ, the model follows the code:
- **Bulk counter on thrown fetches.** The bulk counter does not advance when `fetch` throws, because the increment sits inside the `try` after the `await`. `downloadedAyahs` can therefore end below `totalAyahs`.
- **Sample quantization truncates.** Samples are truncated toward zero, not rounded, because `DataView.setInt16` applies ToInt16.
- **No format check in merge.** `mergeAudioBuffers` does not check that sample rates or channel counts agree. A buffer with fewer channels than the first makes `getChannelData` throw. The segment handler models that throw as the `ChannelMissing` error, and `Merge` takes the channel condition as a precondition.

## Model

| member | source | states |
|---|---|---|
| AyahKey.Decimal | src/script.js:92-95 | `String(n)` of a non-negative integer below 10^21 is non-empty and all decimal digits |
| AyahKey.PadStart | src/script.js:92-95 | `padStart` pads to `max(width, length)`, never truncates, keeps the string as suffix, fills the prefix |
| AyahKey.Field | src/script.js:92-95 | definition: `String(n).padStart(3, "0")`; its meaning is proved by FieldBelow1000, FieldValue and FieldWidensBeyondBound |
| AyahKey.Key | src/script.js:92-95 | definition: the `ayahId`, the two fields side by side; KeyRoundTrip, KeyInjective and KeyCollidesBeyondBound say when it identifies a verse |
| AyahKey.FieldBelow1000 | src/script.js:92-95 | below 1000 a padded field is exactly the three digits of the number |
| AyahKey.FieldValue | src/script.js:92-95 | below 1000 a field has three digit characters whose weighted sum is the number |
| AyahKey.KeyRoundTrip | src/script.js:92-95 | within the bound the key has six characters and parses back to (surah, ayah) |
| AyahKey.KeyInjective | src/script.js:92-95 | within the bound two verses never share a key |
| AyahKey.FieldWidensBeyondBound | src/script.js:92-95 | a number from 1000 up (below 10^21) is not truncated: its field is its full decimal form, four or more characters |
| AyahKey.KeyCollidesBeyondBound | src/script.js:92-95 | beyond the bound the key is not injective: (1001, 1) and (100, 1001) share a key |
| AudioSource.AudioUrl | src/script.js:403-406 | definition: `BASE_URL + ayahId + ".mp3"`, the URL both download paths fetch; AudioUrlInjective proves distinct verses get distinct URLs |
| AudioSource.AudioUrlInjective | src/script.js:5-6 | within the bound distinct verses are fetched from distinct URLs `BASE_URL + ayahId + ".mp3"` |
| AyahStore.Upsert | src/script.js:92-99 | definition: `store.put` of the record under its computed key; UpsertWellKeyed, UpsertOverwrites, LookupAfterUpsert and LookupOtherAfterUpsert prove what it does |
| AyahStore.Lookup | src/script.js:105-118 | definition: `store.get` of the computed key, then its `data` or null; LookupFindsVerse, LookupAfterUpsert and LookupOtherAfterUpsert prove what it returns |
| AyahStore.LookupFindsVerse | src/script.js:105-118 | in a well-keyed store within the key bound, `get` of a verse returns some data exactly when a stored record of that very verse holds that data: it never returns another verse's recording |
| AyahStore.WithoutSurah | src/script.js:149-174 | definition: the store minus every record of the chapter; WithoutSurahExact, WithoutAbsentSurah and WithoutSurahWellKeyed prove what deleting leaves |
| AyahStore.UpsertWellKeyed | src/script.js:90-103 | `put` keeps every record under the key derived from its own numbers |
| AyahStore.LookupAfterUpsert | src/script.js:90-118 | `put` then `get` of the same verse returns exactly the stored data |
| AyahStore.UpsertOverwrites | src/script.js:99 | a second `put` with an existing key overwrites: the record count stays, a new key adds one |
| AyahStore.LookupOtherAfterUpsert | src/script.js:90-118 | within the key bound, `put` of one verse does not change `get` of any other |
| AyahStore.WithoutSurahExact | src/script.js:157-170 | deleting a chapter removes exactly its records: a key remains if and only if it held a record of another chapter, that record unchanged; just that chapter leaves the stored chapters |
| AyahStore.WithoutAbsentSurah | src/script.js:157-170 | deleting a chapter with no stored verse changes nothing |
| AyahStore.WithoutSurahWellKeyed | src/script.js:149-174 | deleting a chapter keeps the key invariant |
| AyahStore.Store.Put | src/script.js:90-103 | `saveAyahToCache`: the store becomes the old store with the record inserted or replaced, and `get` of it returns the data |
| AyahStore.Store.Get | src/script.js:105-118 | `getAyahFromCache`: returns `Lookup` of the current store, whose meaning LookupFindsVerse and LookupAfterUpsert state; the store is only read |
| AyahStore.Store.StoredSurahs | src/script.js:120-133 | `getStoredSurahs`: each chapter of a stored record exactly once, and nothing else |
| AyahStore.Store.SurahAyahs | src/script.js:135-147 | `getSurahAyahsFromCache`: exactly the verse numbers of the records of the chapter, without duplicates |
| AyahStore.Store.DeleteSurah | src/script.js:149-174 | `deleteSurahFromCache`: the store becomes the old store without the chapter's records, key invariant kept |
| AyahStore.Store.ClearAll | src/script.js:176-185 | `clearAllCache`: the store is empty and no chapter is stored |
| AudioMerge.TotalLength | src/script.js:534-537 | definition: `totalLength`, the sum of the buffer lengths; ConcatLength relates it to the channel data |
| AudioMerge.Offset | src/script.js:545-556 | definition: the value of `offset` when buffer k is copied; OffsetStep and OffsetBounded prove how it advances and that it stays in range |
| AudioMerge.ChannelConcat | src/script.js:545-556 | definition: the target channel after all copies, as one concatenation; ConcatLength and ConcatPlacement prove its length and where each sample lands |
| AudioMerge.Merged | src/script.js:526-559 | the merged value is well formed: every channel is `TotalLength` samples long |
| AudioMerge.OffsetStep | src/script.js:545-556 | buffer k ends where buffer k + 1 begins, and no later than the total length |
| AudioMerge.OffsetBounded | src/script.js:545-556 | every running offset lies within the total length |
| AudioMerge.ConcatLength | src/script.js:535-543 | a channel concatenated across well-formed buffers is as long as the sum of their lengths |
| AudioMerge.ConcatLengths | src/script.js:535-543 | every channel of the first buffer spans the total length |
| AudioMerge.ConcatPlacement | src/script.js:545-556 | sample i of buffer k lands at position offset_k + i of the concatenated channel |
| AudioMerge.MergedPlacement | src/script.js:545-556 | in the merged buffer, sample i of buffer k sits at frame offset_k + i on every channel: no gap, no overlap |
| AudioMerge.CopyBuffer | src/script.js:546-555 | one outer pass copies every channel of buffer k into [offset_k, offset_k + len_k) and leaves every other cell unchanged |
| AudioMerge.Merge | src/script.js:526-559 | error exactly on an empty list; else the first buffer's rate and channel count, length the sum of lengths, each channel the in-order concatenation, equal to `Merged` |
| Wave.Int16Wrap | src/script.js:594-598 | ToInt16 lands in [-32768, 32767] and is the identity there |
| Wave.Uint16LE | src/script.js:576-577 | the two bytes `setUint16(…, true)` writes, least significant first; Uint16RoundTrip proves they read back to the value modulo 2^16 |
| Wave.Uint32LE | src/script.js:572 | the four bytes `setUint32(…, true)` writes, least significant first; Uint32RoundTrip proves they read back to the value modulo 2^32 |
| Wave.Uint16RoundTrip | src/script.js:576-577 | the two little-endian bytes of `setUint16` read back as the value modulo 2^16, and as ToInt16 when signed |
| Wave.Uint32RoundTrip | src/script.js:572 | the four little-endian bytes of `setUint32` read back as the value modulo 2^32 |
| Wave.Ascii | src/script.js:606-610 | one byte per character |
| Wave.Clamp | src/script.js:593 | the clamped sample lies in [-1, 1] and is unchanged when already inside |
| Wave.Truncate | src/script.js:594-598 | truncation toward zero: within 1 of the value, never past zero |
| Wave.Quantize | src/script.js:593-598 | the written sample lies in [-32768, 32767], is 32767 at or above 1, -32768 at or below -1, and keeps the sign |
| Wave.TruncateMonotone | src/script.js:594-598 | truncation toward zero preserves order |
| Wave.QuantizeMonotone | src/script.js:593-598 | a larger sample never gets a smaller 16-bit value |
| Wave.SetUint16 | src/script.js:576-577 | `setUint16` little-endian: the field reads back as the value modulo 2^16, the other bytes unchanged |
| Wave.SetUint32 | src/script.js:572 | `setUint32` little-endian: the field reads back as the value modulo 2^32, the other bytes unchanged |
| Wave.SetInt16 | src/script.js:594-598 | `setInt16` little-endian: the field reads back as ToInt16 of the value, the other bytes unchanged |
| Wave.WriteString | src/script.js:606-610 | `writeString`: the characters' codes modulo 256 at the offset, the other bytes unchanged |
| Wave.HeaderLayoutPrefix | src/script.js:571-583 | the header depends on the first 44 bytes only |
| Wave.WriteRiffChunk | src/script.js:571-573 | "RIFF" at 0, 36 + data length at 4, "WAVE" at 8 |
| Wave.WriteFmtChunk | src/script.js:574-581 | "fmt " at 12, 16 at 16, PCM format 1 at 20, channels at 22, rate at 24, byte rate at 28, block align at 32, 16 bits at 34 |
| Wave.WriteDataChunkHeader | src/script.js:582-583 | "data" at 36 and the data length at 40 |
| Wave.WriteHeader | src/script.js:571-583 | all 44 header bytes as the three chunks state, the sample bytes untouched |
| Wave.SampleAt | src/script.js:590-601 | in a written file, frame i, channel c is the quantized sample at byte 44 + 2(i·channels + c) |
| Wave.WriteFrame | src/script.js:592-600 | the inner loop writes the quantized samples of frame i into its channel slots and nothing else |
| Wave.WriteSamples | src/script.js:590-601 | the outer loop writes every sample slot, frame by frame, and keeps the header |
| Wave.Encodes | src/script.js:561-604 | definition of a correct output: 44 + 2·frames·channels bytes, the header layout, every sample slot holding its quantized sample; SampleAt restates it per frame and channel |
| Wave.BufferToWave | src/script.js:561-604 | the file is 44 + frames·channels·2 bytes, carries the canonical PCM header, and every slot holds its quantized sample |
| Segment.Resolve | src/script.js:471-491 | definition: where one verse's bytes come from (store, or `fetch` when online) or why it fails; ResolveCases proves each case |
| Segment.ResolveVerse | src/script.js:471-491 | the iteration up to decoding returns `Resolve` of the verse and calls `fetch` exactly on an online cache miss |
| Segment.ResolveCases | src/script.js:471-491 | a cache hit is served from the store and not fetched; a miss offline is the offline error; otherwise only an OK response gives data |
| Segment.Step | src/script.js:471-494 | definition: one iteration of the verse loop; StepFacts proves what it does |
| Segment.Collect | src/script.js:467-495 | definition: the verse loop, ended by the first error; CollectInOrder, CollectFetchesOnlyMisses, CollectOfflineStopsAtMiss and CollectStops prove its outcome |
| Segment.StepFacts | src/script.js:467-495 | one iteration fetches exactly on an online miss, appends the decoded buffer, or stops with an error at that verse |
| Segment.CollectStops | src/script.js:467-495 | after the first error later verses change nothing: the loop has ended |
| Segment.CollectInOrder | src/script.js:467-495 | a completed loop holds one buffer per verse, start to end in ascending order, each the decoding of that verse's cached or fetched bytes |
| Segment.CollectFetchesOnlyMisses | src/script.js:471-490 | offline nothing is fetched; online exactly the cache misses are fetched, in order, up to the verse where the loop stopped |
| Segment.CollectOfflineStopsAtMiss | src/script.js:473-481 | when the loop stops for being offline, it stops at a verse missing from the cache with all earlier verses of the range cached |
| Segment.Stop | src/script.js:467 | the loop visits `end - start + 1` verses, or none when start exceeds end |
| Segment.CollectSegment | src/script.js:467-495 | the verse loop reads the store without writing it and produces the buffers, fetched URLs and error of `Collect` |
| Segment.DownloadSegment | src/script.js:439-524 | a missing field or an unloaded database fails before any fetch; a loop error is the result; an empty range is the merge error; success exactly when the loop completes with mergeable buffers, the WAVE file encoding their merge |
| Bulk.TotalAyahs | src/script.js:385-392 | definition: `totalAyahs`; AttemptsCount proves it is the number of attempts |
| Bulk.Attempts | src/script.js:394-401 | definition: the (chapter, verse) pairs the loops attempt, in order; SurahAttemptsInOrder and AttemptsCount describe them |
| Bulk.Apply | src/script.js:402-423 | definition: one attempt's effect on store, counter and fetched URLs; RunCounts, RunWritesOnlyOk and RunSavesOk prove what a run of them does |
| Bulk.Run | src/script.js:394-425 | definition: the attempts applied in order; RunFetchesAll, RunCounts, CounterBound, RunWellKeyed, RunWritesOnlyOk and RunSavesOk prove its outcome |
| Bulk.SurahAttemptsInOrder | src/script.js:401 | a chapter's attempts are verses 1..numAyat in ascending order |
| Bulk.AttemptsCount | src/script.js:385-399 | `totalAyahs` equals the number of attempts made |
| Bulk.RunFetchesAll | src/script.js:401-408 | every attempt fetches, whatever the store holds; the fetched URLs are the attempts' URLs in order |
| Bulk.RunCounts | src/script.js:402-423 | the counter advances once per attempt whose fetch did not throw, OK or not |
| Bulk.CounterBound | src/script.js:383-423 | `downloadedAyahs` ends at most `totalAyahs`, and equal when no fetch threw |
| Bulk.RunWellKeyed | src/script.js:409-411 | saving keeps the key invariant |
| Bulk.RunWritesOnlyOk | src/script.js:408-411 | only OK responses write: a key no OK attempt saved keeps its old record or stays absent |
| Bulk.RunSavesOk | src/script.js:408-411 | within the key bound, an OK response is saved: afterwards `get` of that verse returns its body unless a later attempt of the same verse overwrote it |
| Bulk.CountAyahs | src/script.js:385-392 | the first loop sums the verse counts of the selected chapters that have a row |
| Bulk.DownloadAyah | src/script.js:402-423 | one attempt: fetch, save when OK, count when not thrown |
| Bulk.DownloadSurah | src/script.js:397-425 | the verse loop of one chapter makes its attempts in order |
| Bulk.DownloadOffline | src/script.js:363-437 | offline or with an empty selection nothing is fetched and the store is unchanged; otherwise the total is the sum and store, counter and fetched URLs are those of all attempts in selection order |

## Left out

- Opening the database (`openDB`, its version upgrade and object-store creation) is not modelled; the store is an already-open map from key to record.
- IndexedDB request failures (`onerror` rejections) are not modelled: every store operation succeeds atomically.
- AyahStore.Store.StoredSurahs and AyahStore.Store.SurahAyahs: return their values in an unspecified order; the order of `getAll` results is not modelled.
- The metadata database (sql.js) is not modelled; its `num_ayat` query is an input function. The bulk handler's behaviour when that database is not loaded (its first query throws) is not modelled.
- `fetch`, `navigator.onLine` and `decodeAudioData` are parameters. `onLine` is read once per call, whereas the source reads it at each cache miss. Body reading (`response.arrayBuffer()`) is assumed not to fail, and so is saving in the bulk path.
- The `AudioContext` is not modelled: neither its resampling of decoded audio nor the range checks of `createBuffer` (zero channels, zero length, sample rate).
- Samples are real numbers. NaN, infinities and the float32 storage of samples are not modelled.
- The `Blob`, the object URL, the preview element and the download link built from the WAVE bytes are not modelled; `BufferToWave` returns the bytes.
- The DOM and UI are not modelled: status and info messages, button states, select and checkbox builders, the stored-chapters list and event wiring.
- The progress percentage (`Math.round`) and the delayed UI reset (`setTimeout`) of the bulk handler are not modelled; only the integer counter is.
- Verse and chapter numbers are non-negative integers below 10^21, where JavaScript's `String` gives plain decimal digits (from 10^21 on it uses exponential form, which `Decimal` does not model); `parseInt` giving `NaN` or 0 for an empty selection is passed as 0.
- Each click handler is modelled as running alone: no other handler writes the store between the awaits of one call. The source does not prevent it (the clear-all button is never disabled, and each download button disables only itself), so a clear-all or a bulk download's save can change the store during the segment loop, and a clear-all can run during the bulk loop; the model takes one store snapshot per call.
- `service-worker.js` (precaching and routing configuration) and `install.js` (service-worker registration and the install prompt) are not part of this model.
