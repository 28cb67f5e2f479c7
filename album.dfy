/** The album archive: entry naming, entry order, and the download file name
    derived from the album title. */
module Album {
  import opened Runtime
  import opened Strings
  import opened Themes
  import opened Storage

  const ReadmeName: string := "readme.txt"
  const OriginalName: string := "01_original.mp3"

  /** `String(n).padStart(2, '0')`. */
  function TrackNumber(n: nat): string
  {
    PadStart(NatToString(n), 2, '0')
  }

  /** Below ten: a leading zero, then the digit. */
  lemma TrackNumberSmall(n: nat)
    requires n < 10
    ensures TrackNumber(n) == ['0', DigitChar(n)]
  {
    assert NatToString(n) == [DigitChar(n)];
    assert PadStart([DigitChar(n)], 2, '0') == PadStart(['0', DigitChar(n)], 2, '0');
  }

  /** From ten on: the plain decimal, which already has two digits. */
  lemma TrackNumberLarge(n: nat)
    requires n >= 10
    ensures TrackNumber(n) == NatToString(n)
  {
    NatToStringDigits(n);
  }

  /** Between ten and ninety-nine: the tens digit, then the units digit. */
  lemma TwoDigitNumber(n: nat)
    requires 10 <= n < 100
    ensures NatToString(n) == [DigitChar(n / 10), DigitChar(n % 10)]
  {
    assert NatToString(n / 10) == [DigitChar(n / 10)];
  }

  /** At least two characters, all of them digits. */
  lemma TrackNumberDigits(n: nat)
    ensures |TrackNumber(n)| >= 2
    ensures forall k :: 0 <= k < |TrackNumber(n)| ==> IsDigit(TrackNumber(n)[k])
  {
    if n < 10 {
      TrackNumberSmall(n);
    } else {
      TrackNumberLarge(n);
      NatToStringDigits(n);
    }
  }

  /** Below one hundred: exactly the tens digit and the units digit. */
  lemma TrackNumberBelowHundred(n: nat)
    requires n < 100
    ensures TrackNumber(n) == [DigitChar(n / 10), DigitChar(n % 10)]
  {
    if n < 10 {
      TrackNumberSmall(n);
      assert DigitChar(0) == '0';
    } else {
      TrackNumberLarge(n);
      TwoDigitNumber(n);
    }
  }

  /** Different track numbers are different strings. */
  lemma TrackNumberInjective(n: nat, m: nat)
    requires TrackNumber(n) == TrackNumber(m)
    ensures n == m
  {
    if n < 10 && m < 10 {
      TrackNumberSmall(n);
      TrackNumberSmall(m);
    } else if n >= 10 && m >= 10 {
      TrackNumberLarge(n);
      TrackNumberLarge(m);
      NatToStringInjective(n, m);
    } else if n < 10 {
      TrackNumberSmall(n);
      TrackNumberLarge(m);
      NatToStringDigits(m);
    } else {
      TrackNumberSmall(m);
      TrackNumberLarge(n);
      NatToStringDigits(n);
    }
  }

  /** The archive name of the remix of experience `i` under theme `key`. */
  function TrackName(i: nat, key: string): string
  {
    TrackNumber(i + 2) + "_" + key + "_remix.mp3"
  }

  /** A track name is its number, then '_', then the theme key, then
      "_remix.mp3". */
  lemma TrackNameParts(i: nat, key: string)
    ensures var a, name := TrackNumber(i + 2), TrackName(i, key);
      && |name| == |a| + |key| + 11
      && name[..|a|] == a
      && name[|a|] == '_'
      && name[|a| + 1..|a| + 1 + |key|] == key
      && name[|a| + 1 + |key|..] == "_remix.mp3"
  {
  }

  /** A track name is its number's digits, then '_'. */
  lemma TrackNameDigits(i: nat, key: string)
    ensures forall k :: 0 <= k < |TrackNumber(i + 2)| ==> IsDigit(TrackName(i, key)[k])
  {
    var x, a := TrackName(i, key), TrackNumber(i + 2);
    TrackNameParts(i, key);
    TrackNumberDigits(i + 2);
    forall k | 0 <= k < |a|
      ensures IsDigit(x[k])
    {
      assert x[k] == x[..|a|][k];
    }
  }

  /** Two track names agree only if their numbers do. */
  lemma TrackNameNumber(i: nat, j: nat, key1: string, key2: string)
    requires TrackName(i, key1) == TrackName(j, key2)
    ensures i == j
  {
    var a, b := TrackNumber(i + 2), TrackNumber(j + 2);
    var x := TrackName(i, key1);
    TrackNameParts(i, key1);
    TrackNameParts(j, key2);
    TrackNameDigits(i, key1);
    TrackNameDigits(j, key2);
    assert |a| == |b|;
    assert a == x[..|a|] == b;
    TrackNumberInjective(i + 2, j + 2);
  }

  /** No track from the second on is numbered like the original. */
  lemma TrackNumberNotOriginal(n: nat)
    requires n >= 2
    ensures |TrackNumber(n)| >= 2
    ensures TrackNumber(n)[..2] != OriginalName[..2]
  {
    TrackNumberDigits(n);
    if n < 10 {
      TrackNumberSmall(n);
      assert TrackNumber(n)[1] != '1';
    } else {
      TrackNumberLarge(n);
      NatToStringDigits(n);
    }
  }

  /** Remixes of different experiences never share a name, and no remix is
      named like the readme or the original. */
  lemma TrackNamesDistinct(i: nat, j: nat, key1: string, key2: string)
    ensures i != j ==> TrackName(i, key1) != TrackName(j, key2)
    ensures TrackName(i, key1) != ReadmeName && TrackName(i, key1) != OriginalName
  {
    if i != j && TrackName(i, key1) == TrackName(j, key2) {
      TrackNameNumber(i, j, key1, key2);
    }
    var a, x := TrackNumber(i + 2), TrackName(i, key1);
    TrackNameParts(i, key1);
    TrackNameDigits(i, key1);
    TrackNumberDigits(i + 2);
    TrackNumberNotOriginal(i + 2);
    assert x[..2] == a[..2];
    assert IsDigit(x[0]) && !IsDigit(ReadmeName[0]);
  }

  /** A track name starts with its number. */
  lemma TrackNameAt(i: nat, key: string, k: nat)
    requires k < |TrackNumber(i + 2)|
    ensures TrackName(i, key)[k] == TrackNumber(i + 2)[k]
  {
    var x, a := TrackName(i, key), TrackNumber(i + 2);
    TrackNameParts(i, key);
    assert x[k] == x[..|a|][k];
  }

  /** Below one hundred tracks, sorting the remix names by string order
      lists them in processing order. */
  lemma TrackNamesSorted(i: nat, j: nat, key1: string, key2: string)
    requires i < j && j + 2 < 100
    ensures LexLess(TrackName(i, key1), TrackName(j, key2))
  {
    var x, y := TrackName(i, key1), TrackName(j, key2);
    TrackNameParts(i, key1);
    TrackNameParts(j, key2);
    TrackNumberBelowHundred(i + 2);
    TrackNumberBelowHundred(j + 2);
    TrackNameAt(i, key1, 0);
    TrackNameAt(i, key1, 1);
    TrackNameAt(j, key2, 0);
    TrackNameAt(j, key2, 1);
    assert x[0] == y[0] ==> (i + 2) / 10 == (j + 2) / 10;
    LexLessByPrefix(x, y);
  }

  /** From the ninety-ninth experience on, string order no longer follows
      processing order: "100_..." sorts before "99_...". */
  lemma TrackNamesUnsortedAtHundred(key1: string, key2: string)
    ensures LexLess(TrackName(98, key1), TrackName(97, key2))
  {
    var x, y := TrackName(98, key1), TrackName(97, key2);
    TrackNameParts(98, key1);
    TrackNameParts(97, key2);
    TrackNumberBelowHundred(99);
    TrackNumberLarge(100);
    TwoDigitNumber(10);
    TrackNumberDigits(100);
    assert NatToString(100) == NatToString(10) + [DigitChar(0)];
    assert TrackNumber(100)[0] == DigitChar(1);
    TrackNameAt(98, key1, 0);
    TrackNameAt(97, key2, 0);
    assert x[0] == '1' && y[0] == '9';
    LexLessByPrefix(TrackName(98, key1), TrackName(97, key2));
  }

  /** The entry for experience `i`: its theme decides the name and the
      filter graph applied to the original sound. */
  function RemixEntry(i: nat, experience: string, original: Sound): Entry
  {
    var key := SelectTheme(experience);
    Entry(TrackName(i, key), Audio(Remix(original, key)))
  }

  /** The remix entries of the first `k` experiences, in experience order. */
  function Remixes(original: Sound, experiences: seq<string>, k: nat): (r: seq<Entry>)
    requires k <= |experiences|
    ensures |r| == k
  {
    if k == 0 then []
    else Remixes(original, experiences, k - 1) + [RemixEntry(k - 1, experiences[k - 1], original)]
  }

  /** The first two entries every album starts with. */
  function Header(readme: string, original: Sound): seq<Entry>
  {
    [Entry(ReadmeName, Text(readme)), Entry(OriginalName, Audio(original))]
  }

  /** The archive, entry by entry, in the order the handlers add them. */
  function Archive(readme: string, original: Sound, experiences: seq<string>): seq<Entry>
  {
    Header(readme, original) + Remixes(original, experiences, |experiences|)
  }

  /** Taking one more experience appends its remix to whatever precedes
      the remixes. */
  lemma RemixesSnoc(prefix: seq<Entry>, original: Sound, experiences: seq<string>, k: nat)
    requires k < |experiences|
    ensures prefix + Remixes(original, experiences, k + 1)
      == prefix + Remixes(original, experiences, k) + [RemixEntry(k, experiences[k], original)]
  {
    var prev, last := Remixes(original, experiences, k), RemixEntry(k, experiences[k], original);
    assert Remixes(original, experiences, k + 1) == prev + [last];
    assert prefix + (prev + [last]) == prefix + prev + [last];
  }

  /** The `i`-th remix is the one made from the `i`-th experience. */
  lemma {:induction false} RemixAt(original: Sound, experiences: seq<string>, k: nat, i: nat)
    requires i < k <= |experiences|
    ensures Remixes(original, experiences, k)[i] == RemixEntry(i, experiences[i], original)
  {
    var prev := Remixes(original, experiences, k - 1);
    var last := RemixEntry(k - 1, experiences[k - 1], original);
    assert Remixes(original, experiences, k) == prev + [last];
    if i < k - 1 {
      RemixAt(original, experiences, k - 1, i);
      assert (prev + [last])[i] == prev[i];
    }
  }

  /** N experiences give N + 2 entries: the readme, the original, then one
      remix per experience in experience order. */
  lemma ArchiveLayout(readme: string, original: Sound, experiences: seq<string>)
    ensures var a := Archive(readme, original, experiences);
      && |a| == |experiences| + 2
      && a[0] == Entry(ReadmeName, Text(readme))
      && a[1] == Entry(OriginalName, Audio(original))
      && forall i :: 0 <= i < |experiences| ==> a[i + 2] == RemixEntry(i, experiences[i], original)
  {
    var h, r := Header(readme, original), Remixes(original, experiences, |experiences|);
    var a := Archive(readme, original, experiences);
    assert a == h + r;
    forall i | 0 <= i < |experiences|
      ensures a[i + 2] == RemixEntry(i, experiences[i], original)
    {
      assert a[i + 2] == r[i];
      RemixAt(original, experiences, |experiences|, i);
    }
  }

  /** No two entries of an archive share a name. */
  lemma ArchiveNamesDistinct(readme: string, original: Sound, experiences: seq<string>)
    ensures var a := Archive(readme, original, experiences);
      forall i, j :: 0 <= i < j < |a| ==> a[i].name != a[j].name
  {
    var a := Archive(readme, original, experiences);
    forall i, j | 0 <= i < j < |a|
      ensures a[i].name != a[j].name
    {
      EntryNamesDistinct(readme, original, experiences, i, j);
    }
  }

  /** The names of two different positions of an archive differ. */
  lemma EntryNamesDistinct(readme: string, original: Sound, experiences: seq<string>, i: nat, j: nat)
    requires i < j < |experiences| + 2
    ensures var a := Archive(readme, original, experiences);
      |a| == |experiences| + 2 && a[i].name != a[j].name
  {
    ArchiveLayout(readme, original, experiences);
    if j >= 2 {
      var kj := SelectTheme(experiences[j - 2]);
      if i >= 2 {
        TrackNamesDistinct(i - 2, j - 2, SelectTheme(experiences[i - 2]), kj);
      } else {
        TrackNamesDistinct(j - 2, j - 2, kj, kj);
      }
    }
  }


  /** `title.replace(/[^a-z0-9]/gi, '_')`. */
  function ReplaceNonAlnum(s: string): (r: string)
    ensures |r| == |s|
  {
    if s == [] then [] else [if IsAsciiAlnum(s[0]) then s[0] else '_'] + ReplaceNonAlnum(s[1..])
  }

  /** The sanitised album title that names the downloadable archive. */
  function ZipStem(title: string): string
  {
    Lower(ReplaceNonAlnum(title))
  }

  /** Each character of the title maps to one character of the stem: a
      letter or digit to its lower-case form, anything else to '_'. */
  lemma {:induction false} ZipStemAt(title: string, i: nat)
    requires i < |title|
    ensures |ZipStem(title)| == |title|
    ensures ZipStem(title)[i] == if IsAsciiAlnum(title[i]) then LowerChar(title[i]) else '_'
  {
    LowerAt(ReplaceNonAlnum(title), i);
    ReplaceAt(title, i);
  }

  lemma {:induction false} ReplaceAt(s: string, i: nat)
    requires i < |s|
    ensures ReplaceNonAlnum(s)[i] == if IsAsciiAlnum(s[i]) then s[i] else '_'
  {
    if i > 0 {
      ReplaceAt(s[1..], i - 1);
    }
  }

  /** The stem keeps the title's length and uses only [a-z0-9_]. */
  lemma ZipStemCharset(title: string)
    ensures |ZipStem(title)| == |title|
    ensures forall i :: 0 <= i < |title| ==>
      IsAsciiLower(ZipStem(title)[i]) || IsDigit(ZipStem(title)[i]) || ZipStem(title)[i] == '_'
  {
    forall i | 0 <= i < |title|
      ensures IsAsciiLower(ZipStem(title)[i]) || IsDigit(ZipStem(title)[i]) || ZipStem(title)[i] == '_'
    {
      ZipStemAt(title, i);
    }
  }

  /** Sanitising a sanitised title changes nothing. */
  lemma ZipStemIdempotent(title: string)
    ensures ZipStem(ZipStem(title)) == ZipStem(title)
  {
    var s := ZipStem(title);
    ZipStemCharset(title);
    forall i | 0 <= i < |s|
      ensures ZipStem(s)[i] == s[i]
    {
      ZipStemAt(s, i);
    }
  }

  /** The file name the status endpoint reports: the stem plus ".zip",
      with no fallback. */
  function StatusFilename(title: string): string
  {
    ZipStem(title) + ".zip"
  }

  /** The file name the synchronous handler returns: the stem, or
      "memory_album" when the stem is empty, plus ".zip". */
  function AlbumFilename(title: string): string
  {
    var stem := ZipStem(title);
    (if stem == "" then "memory_album" else stem) + ".zip"
  }

  /** The fallback applies exactly to the empty title; otherwise both
      endpoints agree. The name "memory_album.zip" also arises from a title
      whose stem is "memory_album". */
  lemma FilenameFallback(title: string)
    ensures ZipStem(title) == "" <==> title == ""
    ensures StatusFilename("") == ".zip" && AlbumFilename("") == "memory_album.zip"
    ensures title != "" ==> AlbumFilename(title) == StatusFilename(title)
    ensures AlbumFilename(title) == "memory_album.zip" <==> title == "" || ZipStem(title) == "memory_album"
  {
    ZipStemCharset(title);
    var stem := ZipStem(title);
    if AlbumFilename(title) == "memory_album.zip" && stem != "" {
      assert stem == AlbumFilename(title)[..|stem|];
    }
  }

  /** A non-empty title that still yields the fallback's name. */
  lemma FallbackNameFromNonEmptyTitle(title: string)
    requires title == "Memory Album"
    ensures title != "" && AlbumFilename(title) == "memory_album.zip"
  {
    var stem := "memory_album";
    forall i | 0 <= i < |title|
      ensures ZipStem(title)[i] == stem[i]
    {
      ZipStemAt(title, i);
    }
    ZipStemCharset(title);
    assert ZipStem(title) == stem;
  }
}
