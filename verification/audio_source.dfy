/**
  Where verse audio comes from: the remote URL built from the cache key, and
  the shape of what `fetch` can give back. `fetch` itself is an oracle passed
  in by callers; nothing here performs I/O.
*/
module AudioSource {
  import opened Bytes
  import opened AyahKey

  /** `BASE_URL` (script.js:5-6). */
  const BaseUrl: string := "https://raw.githubusercontent.com/brmhmh/yacineee/refs/heads/upup/"

  /** `${BASE_URL}${ayahId}.mp3`. */
  function AudioUrl(surah: nat, ayah: nat): string
  {
    BaseUrl + Key(surah, ayah) + ".mp3"
  }

  /** What `await fetch(url)` produces: a thrown network error, or a response with its `ok` flag and body. */
  datatype FetchOutcome = NetworkError | Response(ok: bool, body: Bytes)

  /** Within the key bound, distinct verses are fetched from distinct URLs. */
  lemma AudioUrlInjective(s1: nat, a1: nat, s2: nat, a2: nat)
    requires s1 < 1000 && a1 < 1000 && s2 < 1000 && a2 < 1000
    requires AudioUrl(s1, a1) == AudioUrl(s2, a2)
    ensures s1 == s2 && a1 == a2
  {
    KeyRoundTrip(s1, a1);
    KeyRoundTrip(s2, a2);
    var n := |BaseUrl|;
    assert AudioUrl(s1, a1)[n..n + 6] == Key(s1, a1);
    assert AudioUrl(s2, a2)[n..n + 6] == Key(s2, a2);
    KeyInjective(s1, a1, s2, a2);
  }
}
