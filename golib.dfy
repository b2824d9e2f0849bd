/** Models of the few Go standard-library functions the core relies on.
    Strings are sequences of Unicode scalar values ('char'); where Go counts
    bytes, the UTF-8 length is computed explicitly. */
module GoStrings {

  /** strings.HasPrefix */
  predicate HasPrefix(s: string, prefix: string) {
    |prefix| <= |s| && s[..|prefix|] == prefix
  }

  /** strings.TrimPrefix */
  function TrimPrefix(s: string, prefix: string): (r: string)
    ensures HasPrefix(s, prefix) ==> prefix + r == s
    ensures !HasPrefix(s, prefix) ==> r == s
  {
    if HasPrefix(s, prefix) then s[|prefix|..] else s
  }

  /** strings.TrimSuffix */
  function TrimSuffix(s: string, suffix: string): (r: string)
    ensures |suffix| <= |s| && s[|s| - |suffix|..] == suffix ==> r + suffix == s
    ensures !(|suffix| <= |s| && s[|s| - |suffix|..] == suffix) ==> r == s
  {
    if |suffix| <= |s| && s[|s| - |suffix|..] == suffix then s[..|s| - |suffix|] else s
  }

  /** strings.LastIndex(s, string(c)) for a one-character separator:
      the position of the last c, or -1 when there is none. */
  function LastIndex(s: string, c: char): (r: int)
    ensures -1 <= r < |s|
    ensures r == -1 <==> c !in s
    ensures r >= 0 ==> s[r] == c && c !in s[r + 1..]
    decreases |s|
  {
    if |s| == 0 then -1
    else if s[|s| - 1] == c then |s| - 1
    else
      var r := LastIndex(s[..|s| - 1], c);
      assert s[..|s| - 1] + [s[|s| - 1]] == s;
      assert r >= 0 ==> s[r + 1..] == s[..|s| - 1][r + 1..] + [s[|s| - 1]];
      r
  }

  /** strings.ReplaceAll(s, string(old), string(new)) for one-character
      arguments. */
  function ReplaceAll(s: string, from: char, to: char): (r: string)
    ensures |r| == |s|
    ensures forall i :: 0 <= i < |s| ==> r[i] == if s[i] == from then to else s[i]
  {
    if |s| == 0 then [] else [if s[0] == from then to else s[0]] + ReplaceAll(s[1..], from, to)
  }

  /** strings.Join */
  function Join(parts: seq<string>, sep: string): string {
    if |parts| == 0 then ""
    else if |parts| == 1 then parts[0]
    else parts[0] + sep + Join(parts[1..], sep)
  }

  /** The number of bytes of the UTF-8 encoding of one character. */
  function Utf8Width(c: char): (n: nat)
    ensures 1 <= n <= 4
    ensures n == 1 <==> (c as int) < 0x80
  {
    if (c as int) < 0x80 then 1
    else if (c as int) < 0x800 then 2
    else if (c as int) < 0x10000 then 3
    else 4
  }

  /** len(s) in Go: the byte length of the UTF-8 encoding. */
  function ByteLen(s: string): (n: nat)
    ensures |s| <= n <= 4 * |s|
  {
    if |s| == 0 then 0 else Utf8Width(s[0]) + ByteLen(s[1..])
  }

  predicate IsAscii(s: string) {
    forall i :: 0 <= i < |s| ==> (s[i] as int) < 0x80
  }

  /** For ASCII text the byte length is the character count. */
  lemma {:induction false} AsciiByteLen(s: string)
    ensures ByteLen(s) == |s| <==> IsAscii(s)
  {
    if |s| > 0 {
      AsciiByteLen(s[1..]);
      assert IsAscii(s) <==> (s[0] as int) < 0x80 && IsAscii(s[1..]) by {
        if IsAscii(s[1..]) && (s[0] as int) < 0x80 {
          forall i | 0 <= i < |s| ensures (s[i] as int) < 0x80 {
            if i > 0 { assert s[i] == s[1..][i - 1]; }
          }
        }
        if IsAscii(s) {
          forall i | 0 <= i < |s[1..]| ensures (s[1..][i] as int) < 0x80 {
            assert s[1..][i] == s[i + 1];
          }
        }
      }
    }
  }
}

/** fmt.Sprint / "%d" of a non-negative integer. */
module GoFmt {

  function DigitChar(d: nat): (c: char)
    requires d < 10
    ensures '0' <= c <= '9'
  {
    "0123456789"[d]
  }

  predicate IsDigits(s: string) {
    forall i :: 0 <= i < |s| ==> '0' <= s[i] <= '9'
  }

  /** The decimal text of n, without leading zeros. */
  function Decimal(n: nat): (s: string)
    ensures |s| >= 1 && IsDigits(s)
    ensures |s| > 1 ==> s[0] != '0'
  {
    if n < 10 then [DigitChar(n)] else Decimal(n / 10) + [DigitChar(n % 10)]
  }

  function DigitValue(c: char): nat
    requires '0' <= c <= '9'
  {
    (c as int) - ('0' as int)
  }

  /** The value of a string of decimal digits. */
  function DecimalValue(s: string): nat
    requires IsDigits(s)
  {
    if |s| == 0 then 0 else 10 * DecimalValue(s[..|s| - 1]) + DigitValue(s[|s| - 1])
  }

  /** Reading the decimal text back gives the number. */
  lemma {:induction false} DecimalRoundTrip(n: nat)
    ensures DecimalValue(Decimal(n)) == n
  {
    var s := Decimal(n);
    if n < 10 {
      assert s[..0] == [];
    } else {
      DecimalRoundTrip(n / 10);
      assert s[..|s| - 1] == Decimal(n / 10);
    }
  }

  /** Distinct numbers have distinct decimal texts. */
  lemma DecimalInjective(m: nat, n: nat)
    ensures Decimal(m) == Decimal(n) ==> m == n
  {
    DecimalRoundTrip(m);
    DecimalRoundTrip(n);
  }
}

/** html.EscapeString */
module GoHtml {
  import opened GoStrings

  function EscapeChar(c: char): string {
    match c
    case '&' => "&amp;"
    case '\'' => "&#39;"
    case '<' => "&lt;"
    case '>' => "&gt;"
    case '"' => "&#34;"
    case _ => [c]
  }

  /** Escapes the five characters <, >, &, ' and " as HTML entities. */
  function EscapeString(s: string): (r: string)
    ensures '<' !in r && '>' !in r && '"' !in r && '\'' !in r
    ensures |r| >= |s|
  {
    if |s| == 0 then "" else EscapeChar(s[0]) + EscapeString(s[1..])
  }

  /** Unescaping the escaped text gives the text back, so no character is
      lost or confused with another. */
  lemma {:induction false} EscapeRoundTrip(s: string)
    ensures Unescape(EscapeString(s)) == s
  {
    if |s| > 0 {
      EscapeRoundTrip(s[1..]);
      UnescapeChar(s[0], EscapeString(s[1..]));
      assert [s[0]] + s[1..] == s;
    }
  }

  /** html.UnescapeString for the five entities EscapeString writes; any
      other text is kept as it is. */
  function Unescape(r: string): string
    decreases |r|
  {
    if |r| == 0 then ""
    else if r[0] != '&' then [r[0]] + Unescape(r[1..])
    else if HasPrefix(r, "&amp;") then "&" + Unescape(r[5..])
    else if HasPrefix(r, "&#39;") then "'" + Unescape(r[5..])
    else if HasPrefix(r, "&lt;") then "<" + Unescape(r[4..])
    else if HasPrefix(r, "&gt;") then ">" + Unescape(r[4..])
    else if HasPrefix(r, "&#34;") then "\"" + Unescape(r[5..])
    else [r[0]] + Unescape(r[1..])
  }

  /** Unescaping an escaped character gives the character back. */
  lemma UnescapeChar(c: char, rest: string)
    ensures Unescape(EscapeChar(c) + rest) == [c] + Unescape(rest)
  {
    match c
    case '&' => UnescapeEntity("&amp;", '&', rest);
    case '\'' => UnescapeEntity("&#39;", '\'', rest);
    case '<' => UnescapeEntity("&lt;", '<', rest);
    case '>' => UnescapeEntity("&gt;", '>', rest);
    case '"' => UnescapeEntity("&#34;", '"', rest);
    case _ =>
      var x := [c] + rest;
      assert x[0] == c && x[1..] == rest;
  }

  /** An entity at the start of the text is read as its one character. */
  lemma UnescapeEntity(entity: string, c: char, rest: string)
    requires (entity, c) in [("&amp;", '&'), ("&#39;", '\''), ("&lt;", '<'), ("&gt;", '>'), ("&#34;", '"')]
    ensures Unescape(entity + rest) == [c] + Unescape(rest)
  {
    var x := entity + rest;
    assert x[..|entity|] == entity && x[|entity|..] == rest;
    assert x[1] == entity[1];
  }

  /** Text without any of the five special characters is left as it is. */
  lemma {:induction false} EscapePlain(s: string)
    requires forall i :: 0 <= i < |s| ==> s[i] !in "&'<>\""
    ensures EscapeString(s) == s
  {
    if |s| > 0 {
      assert s[0] !in "&'<>\"";
      EscapePlain(s[1..]);
    }
  }
}

/** time.Time and the protobuf Timestamp conversion. A time is kept as Go
    keeps it internally: seconds since January 1 of year 1 (UTC) and
    nanoseconds within the second; time zones and the monotonic reading
    are not modelled. */
module GoTime {
  import opened Wrappers

  datatype Time = Time(sec: int, nsec: int)

  /** time.Time{}: January 1, year 1, 00:00:00 UTC. */
  const ZeroTime := Time(0, 0)

  /** Seconds from January 1 of year 1 to January 1, 1970. */
  const UnixToInternal: int := (1969 * 365 + 1969 / 4 - 1969 / 100 + 1969 / 400) * 86400

  const NanosPerSecond: int := 1000000000

  /** Time.IsZero */
  predicate IsZero(t: Time) {
    t.sec == 0 && t.nsec == 0
  }

  /** time.Unix(sec, nsec): nanoseconds outside [0, 1e9) are carried into
      the seconds (Go rounds the carry down). */
  function Unix(sec: int, nsec: int): (t: Time)
    ensures 0 <= t.nsec < NanosPerSecond
    ensures (t.sec - UnixToInternal) * NanosPerSecond + t.nsec == sec * NanosPerSecond + nsec
  {
    Time(sec + nsec / NanosPerSecond + UnixToInternal, nsec % NanosPerSecond)
  }

  /** A google.protobuf.Timestamp: seconds and nanoseconds since the Unix epoch. */
  datatype Timestamp = Timestamp(seconds: int, nanos: int)

  /** (*Timestamp).AsTime, which is nil-safe: a nil timestamp reads as
      seconds 0, nanos 0, i.e. the Unix epoch. */
  function AsTime(ts: Option<Timestamp>): (t: Time)
    ensures 0 <= t.nsec < NanosPerSecond
    ensures ts.None? ==> t.sec == UnixToInternal && t.nsec == 0
    ensures ts.Some? ==> (t.sec - UnixToInternal) * NanosPerSecond + t.nsec
                         == ts.value.seconds * NanosPerSecond + ts.value.nanos
  {
    match ts
    case None => Unix(0, 0)
    case Some(t) => Unix(t.seconds, t.nanos)
  }

  /** timestamppb.New */
  function NewTimestamp(t: Time): (ts: Timestamp)
    ensures 0 <= t.nsec < NanosPerSecond ==> AsTime(Some(ts)) == t
  {
    Timestamp(t.sec - UnixToInternal, t.nsec)
  }

  /** The Unix epoch is not Go's zero time. */
  lemma EpochIsNotZero()
    ensures UnixToInternal == 62135596800
    ensures !IsZero(AsTime(None))
  {
  }

  /** t is not later than u. */
  predicate NotAfter(t: Time, u: Time) {
    t.sec < u.sec || (t.sec == u.sec && t.nsec <= u.nsec)
  }
}
