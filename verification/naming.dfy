/** The deterministic names the archiver derives: the storage service URL,
    the container `{org}-{repo}` and the blob `{YYYYMMDDhhmmss}-{uuid}.log.gz`.
    The clock reading and the UUID string are parameters. */
module Naming {
  import opened Base

  // ---------------------------------------------------------------------
  // Decimal digits, as Go's time formatting writes zero-padded numbers

  predicate IsDigit(c: char)
  {
    '0' <= c <= '9'
  }

  predicate AllDigits(s: string)
  {
    forall i :: 0 <= i < |s| ==> IsDigit(s[i])
  }

  function DigitChar(d: nat): (c: char)
    requires d < 10
    ensures IsDigit(c)
  {
    ('0' as int + d) as char
  }

  function DigitValue(c: char): (d: nat)
    requires IsDigit(c)
    ensures d < 10 && DigitChar(d) == c
  {
    c as int - '0' as int
  }

  /** The number a string of decimal digits denotes (most significant first). */
  function DecimalValue(s: string): nat
    requires AllDigits(s)
  {
    if |s| == 0 then 0 else DecimalValue(s[..|s| - 1]) * 10 + DigitValue(s[|s| - 1])
  }

  /** How many digits `n` has without padding. */
  function NumDigits(n: nat): (k: nat)
    ensures k >= 1
  {
    if n < 10 then 1 else 1 + NumDigits(n / 10)
  }

  function Max(a: nat, b: nat): nat
  {
    if a < b then b else a
  }

  function Pow10(k: nat): (p: nat)
    ensures p >= 1
  {
    if k == 0 then 1 else 10 * Pow10(k - 1)
  }

  /** `n` in decimal, left-padded with zeros to at least `width` digits,
      as Go's time layout writes a year (`2006`) or a two-digit field (`01`). */
  function PadDecimal(n: nat, width: nat): string
    decreases n + width
  {
    if n < 10 && width <= 1 then [DigitChar(n)]
    else PadDecimal(n / 10, if width == 0 then 0 else width - 1) + [DigitChar(n % 10)]
  }

  /** The padded string is all digits, exactly as long as the width or the
      number's own digit count, whichever is more, and denotes `n`. */
  lemma {:induction false} PadDecimalFacts(n: nat, width: nat)
    ensures AllDigits(PadDecimal(n, width))
    ensures |PadDecimal(n, width)| == Max(width, NumDigits(n))
    ensures DecimalValue(PadDecimal(n, width)) == n
    decreases n + width
  {
    if !(n < 10 && width <= 1) {
      var prefix := PadDecimal(n / 10, if width == 0 then 0 else width - 1);
      PadDecimalFacts(n / 10, if width == 0 then 0 else width - 1);
      var s := PadDecimal(n, width);
      assert s == prefix + [DigitChar(n % 10)];
      assert s[..|s| - 1] == prefix;
    }
  }

  /** A number below 10^k takes at most k digits. */
  lemma {:induction false} NumDigitsBound(n: nat, k: nat)
    requires 1 <= k && n < Pow10(k)
    ensures NumDigits(n) <= k
  {
    if n >= 10 {
      NumDigitsBound(n / 10, k - 1);
    }
  }

  /** A string of k digits denotes a number below 10^k. */
  lemma {:induction false} DecimalValueBound(s: string)
    requires AllDigits(s)
    ensures DecimalValue(s) < Pow10(|s|)
  {
    if |s| > 0 {
      DecimalValueBound(s[..|s| - 1]);
    }
  }

  /** Padding to the string's own width reproduces any non-empty digit
      string, leading zeros included: the converse of `PadDecimal`'s
      round trip. */
  lemma {:induction false} PadDecimalOfDigits(s: string)
    requires AllDigits(s) && |s| >= 1
    ensures PadDecimal(DecimalValue(s), |s|) == s
  {
    var p := s[..|s| - 1];
    var n := DecimalValue(s);
    assert n / 10 == DecimalValue(p) && n % 10 == DigitValue(s[|s| - 1]);
    if |p| == 0 {
      assert s == [s[0]];
    } else {
      PadDecimalOfDigits(p);
      PadDecimalFacts(DecimalValue(p), |p|);
      DecimalValueBound(p);
      assert s == p + [s[|s| - 1]];
    }
  }

  // ---------------------------------------------------------------------
  // Blob names

  /** A reading of the local clock, as `time.Now()` returns it. */
  datatype Clock = Clock(year: nat, month: nat, day: nat, hour: nat, minute: nat, second: nat)

  /** The clock's fields fit the layout's widths (every real clock reading
      from year 0 to 9999 does). */
  predicate FitsLayout(c: Clock)
  {
    c.year < 10000 && c.month < 100 && c.day < 100 && c.hour < 100 && c.minute < 100 && c.second < 100
  }

  /** `t.Format("20060102150405")`. */
  function Timestamp(c: Clock): string
  {
    PadDecimal(c.year, 4) + PadDecimal(c.month, 2) + PadDecimal(c.day, 2)
      + PadDecimal(c.hour, 2) + PadDecimal(c.minute, 2) + PadDecimal(c.second, 2)
  }

  const BlobSuffix := ".log.gz"

  /** The unique blob name: the timestamp, a hyphen, the UUID, `.log.gz`. */
  function BlobName(now: Clock, uuid: string): string
  {
    Timestamp(now) + "-" + uuid + BlobSuffix
  }

  /** Reads the six fields back out of a 14-digit timestamp. */
  function ParseTimestamp(d: string): Clock
    requires |d| == 14 && AllDigits(d)
  {
    assert AllDigits(d[0..4]) && AllDigits(d[4..6]) && AllDigits(d[6..8]);
    assert AllDigits(d[8..10]) && AllDigits(d[10..12]) && AllDigits(d[12..14]);
    Clock(DecimalValue(d[0..4]), DecimalValue(d[4..6]), DecimalValue(d[6..8]),
          DecimalValue(d[8..10]), DecimalValue(d[10..12]), DecimalValue(d[12..14]))
  }

  /** Reads a blob name back into the clock reading and UUID it was made
      from; `None` for a string of any other shape. */
  function ParseBlobName(name: string): Option<(Clock, string)>
  {
    if |name| >= 22 && AllDigits(name[..14]) && name[14] == '-' && name[|name| - 7..] == BlobSuffix then
      Some((ParseTimestamp(name[..14]), name[15..|name| - 7]))
    else
      None
  }

  /** A field that fits its width is written with exactly that many digits. */
  lemma PaddedField(n: nat, width: nat)
    requires 1 <= width && n < Pow10(width)
    ensures |PadDecimal(n, width)| == width && AllDigits(PadDecimal(n, width))
    ensures DecimalValue(PadDecimal(n, width)) == n
  {
    PadDecimalFacts(n, width);
    NumDigitsBound(n, width);
  }

  /** The timestamp is 14 digits, each field at its fixed offset. */
  lemma TimestampShape(c: Clock)
    requires FitsLayout(c)
    ensures |Timestamp(c)| == 14 && AllDigits(Timestamp(c))
    ensures Timestamp(c)[0..4] == PadDecimal(c.year, 4)
    ensures Timestamp(c)[4..6] == PadDecimal(c.month, 2)
    ensures Timestamp(c)[6..8] == PadDecimal(c.day, 2)
    ensures Timestamp(c)[8..10] == PadDecimal(c.hour, 2)
    ensures Timestamp(c)[10..12] == PadDecimal(c.minute, 2)
    ensures Timestamp(c)[12..14] == PadDecimal(c.second, 2)
  {
    assert Pow10(2) == 100 && Pow10(4) == 10000;
    PaddedField(c.year, 4);
    PaddedField(c.month, 2);
    PaddedField(c.day, 2);
    PaddedField(c.hour, 2);
    PaddedField(c.minute, 2);
    PaddedField(c.second, 2);
    FieldsShape(PadDecimal(c.year, 4), PadDecimal(c.month, 2), PadDecimal(c.day, 2),
                PadDecimal(c.hour, 2), PadDecimal(c.minute, 2), PadDecimal(c.second, 2));
  }

  /** Six digit fields of widths 4, 2, 2, 2, 2, 2 laid end to end make 14
      digits with each field at its offset. */
  lemma FieldsShape(y: string, mo: string, d: string, h: string, mi: string, s: string)
    requires |y| == 4 && |mo| == 2 && |d| == 2 && |h| == 2 && |mi| == 2 && |s| == 2
    requires AllDigits(y) && AllDigits(mo) && AllDigits(d) && AllDigits(h) && AllDigits(mi) && AllDigits(s)
    ensures var t := y + mo + d + h + mi + s;
      && |t| == 14 && AllDigits(t)
      && t[0..4] == y && t[4..6] == mo && t[6..8] == d && t[8..10] == h && t[10..12] == mi && t[12..14] == s
  {
    var t := y + mo + d + h + mi + s;
    forall i | 0 <= i < 14
      ensures IsDigit(t[i])
    {
      if i < 4 { assert t[i] == y[i]; }
      else if i < 6 { assert t[i] == mo[i - 4]; }
      else if i < 8 { assert t[i] == d[i - 6]; }
      else if i < 10 { assert t[i] == h[i - 8]; }
      else if i < 12 { assert t[i] == mi[i - 10]; }
      else { assert t[i] == s[i - 12]; }
    }
  }

  /** With a clock that fits the layout and a 36-character UUID, the blob
      name is 58 characters: 14 digits, a hyphen, the UUID, `.log.gz`. */
  lemma BlobNameShape(now: Clock, uuid: string)
    requires FitsLayout(now) && |uuid| == 36
    ensures var name := BlobName(now, uuid);
      && |name| == 58
      && AllDigits(name[..14])
      && name[14] == '-'
      && name[15..51] == uuid
      && name[51..] == ".log.gz"
  {
    TimestampShape(now);
    var name := BlobName(now, uuid);
    assert name[..14] == Timestamp(now);
  }

  /** Parsing undoes naming: the clock reading and the UUID are recovered. */
  lemma BlobNameRoundTrip(now: Clock, uuid: string)
    requires FitsLayout(now)
    ensures ParseBlobName(BlobName(now, uuid)) == Some((now, uuid))
  {
    TimestampShape(now);
    PadDecimalFacts(now.year, 4);
    PadDecimalFacts(now.month, 2);
    PadDecimalFacts(now.day, 2);
    PadDecimalFacts(now.hour, 2);
    PadDecimalFacts(now.minute, 2);
    PadDecimalFacts(now.second, 2);
    var name := BlobName(now, uuid);
    var t := Timestamp(now);
    assert name[..14] == t;
    assert name[|name| - 7..] == BlobSuffix;
    assert name[15..|name| - 7] == uuid;
  }

  /** One field of a digit string read and re-padded to its width is the
      field itself, and its value fits that width. */
  lemma FieldRoundTrip(d: string, lo: nat, hi: nat)
    requires AllDigits(d) && lo < hi <= |d|
    ensures AllDigits(d[lo..hi])
    ensures PadDecimal(DecimalValue(d[lo..hi]), hi - lo) == d[lo..hi]
    ensures DecimalValue(d[lo..hi]) < Pow10(hi - lo)
  {
    PadDecimalOfDigits(d[lo..hi]);
    DecimalValueBound(d[lo..hi]);
  }

  /** A field parsed out of a digit string fits its width and is written
      back as the digits it was read from. */
  lemma ParsedField(d: string, lo: nat, hi: nat, n: nat)
    requires AllDigits(d) && lo < hi <= |d| && hi - lo <= 4
    requires AllDigits(d[lo..hi]) && n == DecimalValue(d[lo..hi])
    ensures PadDecimal(n, hi - lo) == d[lo..hi]
    ensures hi - lo == 2 ==> n < 100
    ensures hi - lo == 4 ==> n < 10000
  {
    assert Pow10(2) == 100 && Pow10(4) == 10000;
    FieldRoundTrip(d, lo, hi);
  }

  /** Each field parsed out of a 14-digit string fits its width and is
      written back as the digits it was read from. */
  lemma ParsedFields(d: string)
    requires |d| == 14 && AllDigits(d)
    ensures FitsLayout(ParseTimestamp(d))
    ensures var c := ParseTimestamp(d);
      && PadDecimal(c.year, 4) == d[0..4] && PadDecimal(c.month, 2) == d[4..6]
      && PadDecimal(c.day, 2) == d[6..8] && PadDecimal(c.hour, 2) == d[8..10]
      && PadDecimal(c.minute, 2) == d[10..12] && PadDecimal(c.second, 2) == d[12..14]
  {
    var c := ParseTimestamp(d);
    ParsedField(d, 0, 4, c.year);
    ParsedField(d, 4, 6, c.month);
    ParsedField(d, 6, 8, c.day);
    ParsedField(d, 8, 10, c.hour);
    ParsedField(d, 10, 12, c.minute);
    ParsedField(d, 12, 14, c.second);
  }

  /** Formatting undoes parsing on every 14-digit string. */
  lemma TimestampOfParsed(d: string)
    requires |d| == 14 && AllDigits(d)
    ensures FitsLayout(ParseTimestamp(d)) && Timestamp(ParseTimestamp(d)) == d
  {
    ParsedFields(d);
    assert d == d[0..4] + d[4..6] + d[6..8] + d[8..10] + d[10..12] + d[12..14];
  }

  /** Conversely every string that parses is the blob name of what it
      parses to, from a clock reading that fits the layout: the names are
      exactly the images of `BlobName`. */
  lemma ParsedBlobNameIsBlobName(name: string)
    requires ParseBlobName(name).Some?
    ensures var (now, uuid) := ParseBlobName(name).value;
      FitsLayout(now) && BlobName(now, uuid) == name
  {
    var (now, uuid) := ParseBlobName(name).value;
    TimestampOfParsed(name[..14]);
    assert name == name[..14] + "-" + uuid + name[|name| - 7..];
  }

  // ---------------------------------------------------------------------
  // Container names and the service URL

  /** `fmt.Sprintf("%s-%s", orgName, repoName)`: no case folding or other
      normalisation. */
  function ContainerName(org: string, repo: string): string
  {
    org + "-" + repo
  }

  /** Index of the first `c` in `s`, or `|s|` when there is none. */
  function IndexOf(s: string, c: char): (i: nat)
    ensures i <= |s|
    ensures forall j :: 0 <= j < i ==> s[j] != c
    ensures i < |s| ==> s[i] == c
  {
    if |s| == 0 then 0
    else if s[0] == c then 0
    else 1 + IndexOf(s[1..], c)
  }

  /** Splits a container name at its first hyphen into (org, repo). */
  function SplitContainerName(name: string): Option<(string, string)>
  {
    var i := IndexOf(name, '-');
    if i < |name| then Some((name[..i], name[i + 1..])) else None
  }

  /** For an owner without a hyphen the container name determines the
      owner and the repository. */
  lemma SplitContainerNameRoundTrip(org: string, repo: string)
    requires '-' !in org
    ensures SplitContainerName(ContainerName(org, repo)) == Some((org, repo))
  {
    var name := ContainerName(org, repo);
    var i := IndexOf(name, '-');
    assert name[|org|] == '-';
    assert forall j :: 0 <= j < |org| ==> name[j] == org[j];
    assert name[..|org|] == org && name[|org| + 1..] == repo;
  }

  /** Owner logins may contain hyphens, and then two different
      owner/repository pairs share one container. */
  lemma ContainerNameCollision()
    ensures ContainerName("kuhlman-labs", "bot") == ContainerName("kuhlman", "labs-bot")
  {
  }

  const UrlScheme := "https://"
  const ServiceHost := ".blob.core.windows.net/"

  /** `fmt.Sprintf("https://%s.blob.core.windows.net/", storageAccountName)`. */
  function BlobServiceUrl(account: string): string
  {
    UrlScheme + account + ServiceHost
  }

  /** Reads the account name back out of a blob service URL; `None` for a
      string of any other shape. */
  function AccountOfServiceUrl(url: string): Option<string>
  {
    if |url| >= |UrlScheme| + |ServiceHost| && url[..|UrlScheme|] == UrlScheme
       && url[|url| - |ServiceHost|..] == ServiceHost
    then Some(url[|UrlScheme|..|url| - |ServiceHost|])
    else None
  }

  /** The service URL determines the account it was built from. */
  lemma ServiceUrlRoundTrip(account: string)
    ensures AccountOfServiceUrl(BlobServiceUrl(account)) == Some(account)
  {
    var url := BlobServiceUrl(account);
    assert url[..|UrlScheme|] == UrlScheme;
    assert url[|url| - |ServiceHost|..] == ServiceHost;
    assert url[|UrlScheme|..|url| - |ServiceHost|] == account;
  }

  /** Conversely every string that parses is the service URL of the
      account it parses to. */
  lemma ParsedServiceUrl(url: string)
    requires AccountOfServiceUrl(url).Some?
    ensures BlobServiceUrl(AccountOfServiceUrl(url).value) == url
  {
    var account := AccountOfServiceUrl(url).value;
    assert url == url[..|UrlScheme|] + account + url[|url| - |ServiceHost|..];
  }
}
