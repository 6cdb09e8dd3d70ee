/**
 * The cache-busting query suffix `?t=<timestamp>` that both profile pages
 * append to a freshly uploaded banner's URL, and the reading that strips it
 * off again.
 */
module CacheBuster {
  import opened Common
  import Decimal

  const Marker := "?t="

  /** `${url}?t=${now}` with `now` the millisecond clock reading. */
  function WithCacheBuster(url: string, now: nat): (r: string)
    ensures StartsWith(r, url)
    ensures |r| == |url| + |Marker| + |Decimal.Show(now)|
  {
    url + Marker + Decimal.Show(now)
  }

  /** The length of the longest run of digits at the end of `s`. */
  function TrailingDigits(s: string): (k: nat)
    ensures k <= |s|
    ensures AllDigits(s[|s| - k..])
    ensures k < |s| ==> !IsDigit(s[|s| - 1 - k])
    decreases |s|
  {
    if s == [] || !IsDigit(s[|s| - 1]) then 0
    else
      var k := TrailingDigits(s[..|s| - 1]);
      assert s[|s| - (k + 1)..] == s[..|s| - 1][|s| - 1 - k..] + [s[|s| - 1]];
      k + 1
  }

  /**
   * Splits a displayed banner URL into the provider's URL and the timestamp,
   * or gives None when the URL does not end in `?t=` and at least one digit.
   */
  function SplitCacheBuster(s: string): (r: Option<(string, nat)>)
    ensures r.Some? ==> |r.value.0| + |Marker| < |s| && StartsWith(s, r.value.0 + Marker)
  {
    var k := TrailingDigits(s);
    var cut := |s| - k - |Marker|;
    if k == 0 || cut < 0 || s[cut..|s| - k] != Marker then None
    else
      assert s[..cut + |Marker|] == s[..cut] + Marker;
      Some((s[..cut], Decimal.Parse(s[|s| - k..])))
  }

  /** A run of digits after a non-digit is exactly the trailing digit run. */
  lemma {:induction false} TrailingDigitsAfter(p: string, d: string)
    requires p != [] && !IsDigit(p[|p| - 1])
    requires AllDigits(d)
    ensures TrailingDigits(p + d) == |d|
    decreases |d|
  {
    if d == [] {
      assert p + d == p;
    } else {
      TrailingDigitsAfter(p, d[..|d| - 1]);
      assert (p + d)[..|p + d| - 1] == p + d[..|d| - 1];
    }
  }

  /** Stripping the suffix recovers both the provider's URL and the timestamp. */
  lemma SplitWithCacheBuster(url: string, now: nat)
    ensures SplitCacheBuster(WithCacheBuster(url, now)) == Some((url, now))
  {
    var digits := Decimal.Show(now);
    var s := WithCacheBuster(url, now);
    assert s == (url + Marker) + digits;
    TrailingDigitsAfter(url + Marker, digits);
    var cut := |s| - |digits| - |Marker|;
    assert cut == |url|;
    assert s[cut..|s| - |digits|] == Marker;
    assert s[..cut] == url;
    assert s[|s| - |digits|..] == digits;
    Decimal.ParseShow(now);
  }

  /** Two uploads at different instants never yield the same displayed URL. */
  lemma WithCacheBusterInjective(u1: string, t1: nat, u2: string, t2: nat)
    ensures WithCacheBuster(u1, t1) == WithCacheBuster(u2, t2) ==> u1 == u2 && t1 == t2
  {
    SplitWithCacheBuster(u1, t1);
    SplitWithCacheBuster(u2, t2);
  }
}
