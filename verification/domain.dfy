/**
 * The message contract the analyzer service consumes (the Go side of it):
 * one social-media message carrying one video's payload. Timestamps are
 * instants as integers; `published_at` may be null.
 */
module Domain {
  import opened Wrappers

  /** Engagement counters, each a Go int64 (JSON null decodes to 0). */
  datatype Stats = Stats(views: int, likes: int, comments: int, shares: int)

  datatype ContentMeta = ContentMeta(duration: int, hashtags: seq<string>)

  datatype Author = Author(username: string, nickname: string, followers: int)

  datatype Payload = Payload(
    platformId: string,
    description: string,
    publishedAt: Option<int>,
    url: string,
    stats: Stats,
    contentMeta: ContentMeta,
    author: Author)

  datatype SocialMediaMessage = SocialMediaMessage(
    source: string,
    eventTime: int,
    dataType: string,
    payload: Payload)
}

/** Go's 64-bit signed integers: wrap-around arithmetic and `strconv.ParseInt(s, 10, 64)`. */
module GoInt {
  import Text

  const TwoTo63: int := 0x8000_0000_0000_0000
  const MaxInt64: int := TwoTo63 - 1
  const MinInt64: int := -TwoTo63

  predicate IsInt64(x: int) {
    MinInt64 <= x <= MaxInt64
  }

  /** The int64 that an out-of-range mathematical result wraps around to. */
  function Wrap(x: int): (r: int)
    ensures IsInt64(r)
    ensures IsInt64(x) ==> r == x
    ensures (r - x) % (2 * TwoTo63) == 0
  {
    (x + TwoTo63) % (2 * TwoTo63) - TwoTo63
  }

  /** `a - b` on int64. */
  function Sub(a: int, b: int): int {
    Wrap(a - b)
  }

  /** `a * b` on int64. */
  function Mul(a: int, b: int): int {
    Wrap(a * b)
  }

  /** The text after an optional leading sign. */
  function Digits(s: string): (d: string)
    ensures |s| > 0 && (s[0] == '+' || s[0] == '-') ==> d == s[1..]
    ensures |s| == 0 || (s[0] != '+' && s[0] != '-') ==> d == s
  {
    if |s| > 0 && (s[0] == '+' || s[0] == '-') then s[1..] else s
  }

  /** Syntactically a base-10 integer for ParseInt: an optional sign followed by at least one digit. */
  predicate WellFormed(s: string) {
    |Digits(s)| > 0 && Text.AllDigits(Digits(s))
  }

  /**
   * The value `strconv.ParseInt(s, 10, 64)` returns when its error is
   * ignored: 0 for a syntax error, the clamped bound for an out-of-range
   * number, the number otherwise.
   */
  function ParseIntIgnoringError(s: string): (r: int)
    ensures IsInt64(r)
    ensures !WellFormed(s) ==> r == 0
    ensures WellFormed(s) && s[0] != '-' ==>
              r == if Text.DecimalValue(Digits(s)) > MaxInt64 then MaxInt64 else Text.DecimalValue(Digits(s))
    ensures WellFormed(s) && s[0] == '-' ==>
              r == if Text.DecimalValue(Digits(s)) > TwoTo63 then MinInt64 else -(Text.DecimalValue(Digits(s)) as int)
  {
    if !WellFormed(s) then 0
    else
      var negative := s[0] == '-';
      var magnitude: int := Text.DecimalValue(Digits(s));
      var v := if negative then -magnitude else magnitude;
      if v > MaxInt64 then MaxInt64 else if v < MinInt64 then MinInt64 else v
  }

  /** Leading zeros do not change the number read. */
  lemma ParseLeadingZeros(k: nat, s: string)
    requires WellFormed(s) && Text.IsDigit(s[0])
    ensures WellFormed(Text.Repeat('0', k) + s)
    ensures ParseIntIgnoringError(Text.Repeat('0', k) + s) == ParseIntIgnoringError(s)
  {
    Text.DecimalValueLeadingZeros(k, s);
    var z := Text.Repeat('0', k) + s;
    assert z[0] == (if k > 0 then '0' else s[0]);
    assert Digits(z) == z && Digits(s) == s;
  }

  /** Every in-range number that Go renders with `%d` parses back to itself. */
  lemma {:induction false} ParseRendered(n: int)
    requires IsInt64(n)
    ensures WellFormed(Text.IntToString(n))
    ensures ParseIntIgnoringError(Text.IntToString(n)) == n
  {
    var s := Text.IntToString(n);
    if n < 0 {
      Text.DecimalValueOfNatToString(-n);
      assert s[1..] == Text.NatToString(-n);
    } else {
      Text.DecimalValueOfNatToString(n);
      assert s[0] != '+' && s[0] != '-';
    }
  }
}
