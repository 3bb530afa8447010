/**
  The IndexedDB object store "ayahs", keyed by `ayahId`, holding one record
  per cached verse. The store is modelled as already open (schema upgrade
  handling is not part of this model); its content is a map from key to
  record, and every store operation is one atomic step on that map.
*/
module AyahStore {
  import opened Wrappers
  import opened Bytes
  import opened AyahKey

  /** A stored record `{ ayahId, surah, ayah, data }`. */
  datatype Record = Record(ayahId: string, surah: nat, ayah: nat, data: Bytes)

  type Records = map<string, Record>

  /** The key path invariant: each record sits under its own `ayahId`, derived from its numbers. */
  ghost predicate WellKeyed(m: Records)
  {
    forall k {:trigger KeyedAt(k, m[k])} :: k in m ==> KeyedAt(k, m[k])
  }

  /** A record belongs under key `k`. */
  ghost predicate KeyedAt(k: string, r: Record)
  {
    r.ayahId == k && k == Key(r.surah, r.ayah)
  }

  /** `store.put(record)`: insert, or overwrite the record with the same key. */
  function Upsert(m: Records, surah: nat, ayah: nat, data: Bytes): (m': Records)
  {
    var k := Key(surah, ayah);
    m[k := Record(k, surah, ayah, data)]
  }

  /** `store.get(ayahId)` followed by `result?.data || null`. */
  function Lookup(m: Records, surah: nat, ayah: nat): Option<Bytes>
  {
    var k := Key(surah, ayah);
    if k in m then Some(m[k].data) else None
  }

  /** The distinct `surah` values of the stored records. */
  ghost function SurahsOf(m: Records): set<nat>
  {
    set k | k in m :: m[k].surah
  }

  /** The `ayah` values of the records of chapter `surah`. */
  ghost function AyahsOf(m: Records, surah: nat): set<nat>
  {
    set k | k in m && m[k].surah == surah :: m[k].ayah
  }

  /** The store after every record of chapter `surah` is deleted. */
  function WithoutSurah(m: Records, surah: nat): Records
  {
    map k | k in m && m[k].surah != surah :: m[k]
  }

  predicate NoDuplicates<T(==)>(s: seq<T>)
  {
    forall i, j :: 0 <= i < j < |s| ==> s[i] != s[j]
  }

  /** `put` keeps the key path invariant. */
  lemma UpsertWellKeyed(m: Records, surah: nat, ayah: nat, data: Bytes)
    requires WellKeyed(m)
    ensures WellKeyed(Upsert(m, surah, ayah, data))
  {
  }

  /** `put` then `get` of the same verse returns exactly the stored data. */
  lemma LookupAfterUpsert(m: Records, surah: nat, ayah: nat, data: Bytes)
    ensures Lookup(Upsert(m, surah, ayah, data), surah, ayah) == Some(data)
  {
  }

  /** A second `put` under an existing key overwrites: the record count does not grow. */
  lemma UpsertOverwrites(m: Records, surah: nat, ayah: nat, data: Bytes)
    ensures Key(surah, ayah) in m ==> |Upsert(m, surah, ayah, data)| == |m|
    ensures Key(surah, ayah) !in m ==> |Upsert(m, surah, ayah, data)| == |m| + 1
  {
    var k := Key(surah, ayah);
    if k in m {
      assert Upsert(m, surah, ayah, data).Keys == m.Keys;
    } else {
      assert Upsert(m, surah, ayah, data).Keys == m.Keys + {k};
    }
  }

  /** Within the key bound, `put` of one verse does not change what `get` returns for another. */
  lemma LookupOtherAfterUpsert(m: Records, surah: nat, ayah: nat, data: Bytes, s: nat, a: nat)
    requires surah < 1000 && ayah < 1000 && s < 1000 && a < 1000
    requires (s, a) != (surah, ayah)
    ensures Lookup(Upsert(m, surah, ayah, data), s, a) == Lookup(m, s, a)
  {
    if Key(s, a) == Key(surah, ayah) {
      KeyInjective(s, a, surah, ayah);
    }
  }

  /** Every stored record's numbers lie within the key bound. */
  ghost predicate WithinBound(m: Records)
  {
    forall k :: k in m ==> m[k].surah < 1000 && m[k].ayah < 1000
  }

  /**
    In a well-keyed store within the key bound, `get` of a verse answers with
    some data exactly when a record of that very verse holds that data: it
    never answers with another verse's recording.
  */
  lemma LookupFindsVerse(m: Records, surah: nat, ayah: nat, data: Bytes)
    requires WellKeyed(m) && WithinBound(m) && surah < 1000 && ayah < 1000
    ensures Lookup(m, surah, ayah) == Some(data) <==>
      exists k :: k in m && m[k].surah == surah && m[k].ayah == ayah && m[k].data == data
  {
    var key := Key(surah, ayah);
    if Lookup(m, surah, ayah) == Some(data) {
      assert KeyedAt(key, m[key]);
      KeyInjective(m[key].surah, m[key].ayah, surah, ayah);
    }
    if k :| k in m && m[k].surah == surah && m[k].ayah == ayah && m[k].data == data {
      assert KeyedAt(k, m[k]);
    }
  }

  /**
    Deleting a chapter leaves none of its verses, keeps every other record as
    it was, and adds nothing: a key remains exactly when it held a record of
    another chapter.
  */
  lemma WithoutSurahExact(m: Records, surah: nat)
    ensures forall k :: k in WithoutSurah(m, surah) ==> k in m && m[k].surah != surah
    ensures AyahsOf(WithoutSurah(m, surah), surah) == {}
    ensures SurahsOf(WithoutSurah(m, surah)) == SurahsOf(m) - {surah}
    ensures forall k :: k in m && m[k].surah != surah ==> k in WithoutSurah(m, surah) && WithoutSurah(m, surah)[k] == m[k]
  {
    var m' := WithoutSurah(m, surah);
    forall s | s in SurahsOf(m) - {surah} ensures s in SurahsOf(m') {
      var k :| k in m && m[k].surah == s;
      assert k in m';
    }
  }

  /** Deleting a chapter that has no stored verse changes nothing. */
  lemma WithoutAbsentSurah(m: Records, surah: nat)
    requires surah !in SurahsOf(m)
    ensures WithoutSurah(m, surah) == m
  {
    forall k | k in m ensures m[k].surah != surah {
      assert m[k].surah in SurahsOf(m);
    }
  }

  /** Deleting a chapter keeps the key path invariant. */
  lemma WithoutSurahWellKeyed(m: Records, surah: nat)
    requires WellKeyed(m)
    ensures WellKeyed(WithoutSurah(m, surah))
  {
    var m' := WithoutSurah(m, surah);
    forall k | k in m' ensures KeyedAt(k, m'[k]) {
      assert KeyedAt(k, m[k]);
    }
  }

  /** Adding one record to a store adds its chapter to the stored chapters. */
  lemma SurahsOfInsert(m: Records, k: string, r: Record)
    requires k !in m
    ensures SurahsOf(m[k := r]) == SurahsOf(m) + {r.surah}
  {
    var m' := m[k := r];
    forall s | s in SurahsOf(m) ensures s in SurahsOf(m') {
      var j :| j in m && m[j].surah == s;
      assert j in m' && m'[j] == m[j];
    }
    assert k in m' && m'[k] == r;
    forall s | s in SurahsOf(m') ensures s in SurahsOf(m) + {r.surah} {
      var j :| j in m' && m'[j].surah == s;
      if j != k { assert j in m && m[j] == m'[j]; }
    }
  }

  /** Adding one record to a store adds its verse to its chapter's verses. */
  lemma AyahsOfInsert(m: Records, k: string, r: Record, surah: nat)
    requires k !in m
    ensures AyahsOf(m[k := r], surah) == AyahsOf(m, surah) + (if r.surah == surah then {r.ayah} else {})
  {
    var m' := m[k := r];
    forall a | a in AyahsOf(m, surah) ensures a in AyahsOf(m', surah) {
      var j :| j in m && m[j].surah == surah && m[j].ayah == a;
      assert j in m' && m'[j] == m[j];
    }
    assert k in m' && m'[k] == r;
    forall a | a in AyahsOf(m', surah) ensures a in AyahsOf(m, surah) + (if r.surah == surah then {r.ayah} else {}) {
      var j :| j in m' && m'[j].surah == surah && m'[j].ayah == a;
      if j != k { assert j in m && m[j] == m'[j]; }
    }
  }

  /** The persistent store: one open object store, updated in place by each operation. */
  class Store {
    var records: Records

    ghost predicate Valid()
      reads this
    {
      WellKeyed(records)
    }

    /** A store holding the given records (what an earlier session left behind). */
    constructor (initial: Records)
      requires WellKeyed(initial)
      ensures Valid() && records == initial
    {
      records := initial;
    }

    /** `saveAyahToCache(surah, ayah, data)` (script.js:90-103). */
    method Put(surah: nat, ayah: nat, data: Bytes)
      requires Valid()
      modifies this
      ensures Valid()
      ensures records == Upsert(old(records), surah, ayah, data)
      ensures Lookup(records, surah, ayah) == Some(data)
    {
      UpsertWellKeyed(records, surah, ayah, data);
      records := Upsert(records, surah, ayah, data);
    }

    /** `getAyahFromCache(surah, ayah)` (script.js:105-118): the data, or null when absent. */
    method Get(surah: nat, ayah: nat) returns (r: Option<Bytes>)
      ensures r == Lookup(records, surah, ayah)
    {
      var k := Key(surah, ayah);
      if k in records {
        r := Some(records[k].data);
      } else {
        r := None;
      }
    }

    /** `getStoredSurahs()` (script.js:120-133): every stored chapter number, once. */
    method StoredSurahs() returns (surahs: seq<nat>)
      ensures forall s :: s in surahs <==> s in SurahsOf(records)
      ensures NoDuplicates(surahs)
    {
      var rest := records.Keys;
      ghost var done: Records := map[];
      surahs := [];
      while rest != {}
        invariant rest <= records.Keys && done.Keys == records.Keys - rest
        invariant forall k :: k in done ==> done[k] == records[k]
        invariant forall s :: s in surahs <==> s in SurahsOf(done)
        invariant NoDuplicates(surahs)
        decreases rest
      {
        var k :| k in rest;
        var s := records[k].surah;
        SurahsOfInsert(done, k, records[k]);
        done := done[k := records[k]];
        rest := rest - {k};
        if s !in surahs {
          surahs := surahs + [s];
        }
      }
      assert done == records;
    }

    /** `getSurahAyahsFromCache(surah)` (script.js:135-147): the verse numbers stored for a chapter. */
    method SurahAyahs(surah: nat) returns (ayahs: seq<nat>)
      requires Valid()
      ensures forall a :: a in ayahs <==> a in AyahsOf(records, surah)
      ensures NoDuplicates(ayahs)
    {
      var rest := records.Keys;
      ghost var done: Records := map[];
      ayahs := [];
      while rest != {}
        invariant rest <= records.Keys && done.Keys == records.Keys - rest
        invariant forall k :: k in done ==> done[k] == records[k]
        invariant forall a :: a in ayahs <==> a in AyahsOf(done, surah)
        invariant forall a :: a in ayahs ==> Key(surah, a) in done
        invariant NoDuplicates(ayahs)
        decreases rest
      {
        var k :| k in rest;
        AyahsOfInsert(done, k, records[k], surah);
        done := done[k := records[k]];
        rest := rest - {k};
        if records[k].surah == surah {
          var a := records[k].ayah;
          assert KeyedAt(k, records[k]);
          ayahs := ayahs + [a];
        }
      }
      assert done == records;
    }

    /** `deleteSurahFromCache(surah)` (script.js:149-174): delete each record of the chapter. */
    method DeleteSurah(surah: nat)
      requires Valid()
      modifies this
      ensures Valid()
      ensures records == WithoutSurah(old(records), surah)
    {
      ghost var original := records;
      var doomed0 := set k | k in records && records[k].surah == surah;
      var doomed := doomed0;
      while doomed != {}
        invariant doomed <= doomed0
        invariant forall j :: j in records <==> j in original && (j in doomed || j !in doomed0)
        invariant forall j :: j in records ==> records[j] == original[j]
        decreases doomed
      {
        var k :| k in doomed;
        records := records - {k};
        doomed := doomed - {k};
      }
      assert records == WithoutSurah(original, surah);
      WithoutSurahWellKeyed(original, surah);
    }

    /** `clearAllCache()` (script.js:176-185). */
    method ClearAll()
      modifies this
      ensures Valid()
      ensures records == map[]
      ensures SurahsOf(records) == {}
    {
      records := map[];
    }
  }
}
