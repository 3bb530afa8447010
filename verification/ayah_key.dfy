/**
  The cache key of one verse (ayah) of a chapter (surah): both numbers are
  written in decimal, left-padded with '0' to a width of three characters
  (JavaScript's `String(n).padStart(3, "0")`), and concatenated.
  `padStart` never truncates, so a number of four or more digits widens its
  field; the key is injective only while both numbers are below 1000.
*/
module AyahKey {
  import opened Wrappers

  /** Width each number is padded to. */
  const FieldWidth: nat := 3

  /** The decimal digit character for `d`. */
  function DigitChar(d: nat): (c: char)
    requires d < 10
    ensures '0' <= c <= '9'
  {
    (('0' as int) + d) as char
  }

  /** The value of a decimal digit character. */
  function DigitValue(c: char): (d: nat)
    requires '0' <= c <= '9'
    ensures d < 10 && DigitChar(d) == c
  {
    (c as int) - ('0' as int)
  }

  /** `String(n)` for a non-negative integer: decimal, no leading zeros. */
  function Decimal(n: nat): (s: string)
    ensures 1 <= |s|
    ensures forall i :: 0 <= i < |s| ==> '0' <= s[i] <= '9'
    decreases n
  {
    if n < 10 then [DigitChar(n)] else Decimal(n / 10) + [DigitChar(n % 10)]
  }

  /** `s.padStart(width, fill)` with a one-character fill. */
  function PadStart(s: string, width: nat, fill: char): (r: string)
    ensures |r| == if |s| < width then width else |s|
    ensures r[|r| - |s|..] == s
    ensures forall i :: 0 <= i < |r| - |s| ==> r[i] == fill
  {
    if |s| >= width then s else seq(width - |s|, _ => fill) + s
  }

  /** One padded field of the key. */
  function Field(n: nat): string
  {
    PadStart(Decimal(n), FieldWidth, '0')
  }

  /** The `ayahId` under which verse `ayah` of chapter `surah` is stored and fetched. */
  function Key(surah: nat, ayah: nat): string
  {
    Field(surah) + Field(ayah)
  }

  /** Reads back the numbers of a six-character all-digit key. */
  function ParseKey(k: string): (r: Option<(nat, nat)>)
    ensures r.Some? ==> r.value.0 < 1000 && r.value.1 < 1000
    ensures r.Some? <==> |k| == 6 && forall i :: 0 <= i < 6 ==> '0' <= k[i] <= '9'
  {
    if |k| == 6 && forall i :: 0 <= i < 6 ==> '0' <= k[i] <= '9' then
      Some((100 * DigitValue(k[0]) + 10 * DigitValue(k[1]) + DigitValue(k[2]),
            100 * DigitValue(k[3]) + 10 * DigitValue(k[4]) + DigitValue(k[5])))
    else
      None
  }

  /** A digit character reads back to its digit. */
  lemma DigitRoundTrip(d: nat)
    requires d < 10
    ensures DigitValue(DigitChar(d)) == d
  {
  }

  /** Padding a string of one to three characters to width three. */
  lemma PadToWidth(s: string)
    requires 1 <= |s| <= FieldWidth
    ensures PadStart(s, FieldWidth, '0') ==
      if |s| == 1 then ['0', '0', s[0]] else if |s| == 2 then ['0', s[0], s[1]] else s
  {
    var r := PadStart(s, FieldWidth, '0');
    assert |r| == 3;
    assert r[3 - |s|..] == s;
    if |s| == 1 {
      assert r[2] == s[0];
    } else if |s| == 2 {
      assert r[1] == s[0] && r[2] == s[1];
    }
  }

  /** Below 1000, `String(n)` is its one, two or three digits. */
  lemma DecimalBelow1000(n: nat)
    requires n < 1000
    ensures Decimal(n) ==
      if n < 10 then [DigitChar(n)]
      else if n < 100 then [DigitChar(n / 10), DigitChar(n % 10)]
      else [DigitChar(n / 100), DigitChar(n / 10 % 10), DigitChar(n % 10)]
  {
    if n >= 100 {
      var m := n / 10;
      assert m / 10 == n / 100 && m % 10 == n / 10 % 10;
      assert Decimal(m) == [DigitChar(n / 100), DigitChar(n / 10 % 10)];
    }
  }

  /** Below 1000 a field is exactly the three decimal digits of the number. */
  lemma FieldBelow1000(n: nat)
    requires n < 1000
    ensures Field(n) == [DigitChar(n / 100), DigitChar(n / 10 % 10), DigitChar(n % 10)]
  {
    DecimalBelow1000(n);
    PadToWidth(Decimal(n));
    if n < 10 {
      assert n / 100 == 0 && n / 10 % 10 == 0 && n % 10 == n;
    } else if n < 100 {
      assert n / 100 == 0 && n / 10 % 10 == n / 10;
    }
  }

  /** The three digits of a field below 1000 read back to the number. */
  lemma FieldValue(n: nat)
    requires n < 1000
    ensures |Field(n)| == 3
    ensures forall i :: 0 <= i < 3 ==> '0' <= Field(n)[i] <= '9'
    ensures 100 * DigitValue(Field(n)[0]) + 10 * DigitValue(Field(n)[1]) + DigitValue(Field(n)[2]) == n
  {
    var d0, d1, d2 := n / 100, n / 10 % 10, n % 10;
    FieldBelow1000(n);
    var f := Field(n);
    assert f[0] == DigitChar(d0) && f[1] == DigitChar(d1) && f[2] == DigitChar(d2);
    DigitRoundTrip(d0);
    DigitRoundTrip(d1);
    DigitRoundTrip(d2);
    DigitsSum(n);
  }

  /** A number below 1000 is the weighted sum of its three decimal digits. */
  lemma DigitsSum(n: nat)
    requires n < 1000
    ensures 100 * (n / 100) + 10 * (n / 10 % 10) + n % 10 == n
  {
    var m := n / 10;
    assert n == 10 * m + n % 10;
    assert m / 10 == n / 100;
    assert m == 10 * (m / 10) + m % 10;
  }

  /** Within the padding bound the key has six characters and parses back to its numbers. */
  lemma KeyRoundTrip(surah: nat, ayah: nat)
    requires surah < 1000 && ayah < 1000
    ensures |Key(surah, ayah)| == 6
    ensures ParseKey(Key(surah, ayah)) == Some((surah, ayah))
  {
    FieldValue(surah);
    FieldValue(ayah);
    ParseFields(Field(surah), Field(ayah));
  }

  /** Two three-digit fields side by side parse back to their values. */
  lemma ParseFields(f: string, g: string)
    requires |f| == 3 && |g| == 3
    requires forall i :: 0 <= i < 3 ==> '0' <= f[i] <= '9' && '0' <= g[i] <= '9'
    ensures |f + g| == 6
    ensures ParseKey(f + g) == Some((
      100 * DigitValue(f[0]) + 10 * DigitValue(f[1]) + DigitValue(f[2]),
      100 * DigitValue(g[0]) + 10 * DigitValue(g[1]) + DigitValue(g[2])))
  {
    var k := f + g;
    assert k[0] == f[0] && k[1] == f[1] && k[2] == f[2];
    assert k[3] == g[0] && k[4] == g[1] && k[5] == g[2];
    assert forall i :: 0 <= i < 6 ==> '0' <= k[i] <= '9';
  }

  /** Two verses within the padding bound never share a key. */
  lemma KeyInjective(s1: nat, a1: nat, s2: nat, a2: nat)
    requires s1 < 1000 && a1 < 1000 && s2 < 1000 && a2 < 1000
    requires Key(s1, a1) == Key(s2, a2)
    ensures s1 == s2 && a1 == a2
  {
    KeyRoundTrip(s1, a1);
    KeyRoundTrip(s2, a2);
  }

  /** A number of four or more digits is not truncated: its field is its full decimal form. */
  lemma {:induction false} FieldWidensBeyondBound(n: nat)
    requires n >= 1000
    ensures Field(n) == Decimal(n) && |Field(n)| >= 4
  {
    var m := n / 10;
    assert m / 10 == n / 100 && (n / 100) / 10 == n / 1000;
    assert |Decimal(n)| == 1 + |Decimal(m)|;
    assert |Decimal(m)| == 1 + |Decimal(n / 100)|;
    assert |Decimal(n / 100)| == 1 + |Decimal(n / 1000)|;
  }

  /** Beyond the bound the key is no longer injective: (1001, 1) and (100, 1001) collide. */
  lemma KeyCollidesBeyondBound()
    ensures Key(1001, 1) == Key(100, 1001)
  {
    assert Decimal(1) == "1";
    assert Decimal(10) == "10";
    assert Decimal(100) == "100";
    assert Decimal(1001) == Decimal(100) + ['1'];
    assert Field(1) == "001";
    assert Key(1001, 1) == "1001001";
    assert Key(100, 1001) == "1001001";
  }
}
