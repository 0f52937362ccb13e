/**
 * Stripping the trailing anchor of a page URL (`clearAnchor`).
 *
 * The URL is scanned from its last character backwards, down to index 1
 * (index 0 is never looked at). The scan stops at the first `#`, `!` or `/`.
 * Only when that character is a `#` is the URL cut there; a `!` or `/` met
 * first keeps single-page-application routes such as `/#!/path` intact.
 */
module Anchor {
  import opened Wrappers

  /** JavaScript truthiness of a `string | undefined`: present and non-empty. */
  predicate Truthy(s: Option<string>) {
    s.Some? && s.value != ""
  }

  /** The characters at which the backward scan stops. */
  predicate IsStop(c: char) {
    c == '#' || c == '!' || c == '/'
  }

  /**
   * The backward scan over s[i], s[i-1], ..., s[1]: the index of the first
   * stop character met, when that character is a `#`; None when the first
   * stop character is `!` or `/`, or when there is none.
   */
  function ScanBack(s: string, i: nat): (r: Option<nat>)
    requires i < |s|
    ensures r.Some? ==> 1 <= r.value <= i && s[r.value] == '#'
    decreases i
  {
    if i == 0 then None
    else if s[i] == '#' then Some(i)
    else if s[i] == '!' || s[i] == '/' then None
    else ScanBack(s, i - 1)
  }

  /** k holds a `#`, lies in 1..i, and no stop character stands between k and i. */
  ghost predicate AnchorWithin(s: string, i: nat, k: nat)
    requires i < |s|
  {
    1 <= k <= i && s[k] == '#' && forall j :: k < j <= i ==> !IsStop(s[j])
  }

  /** The `#` at k is the anchor the rule removes from s. */
  ghost predicate TrailingAnchor(s: string, k: nat) {
    s != [] && AnchorWithin(s, |s| - 1, k)
  }

  /** Whatever the scan reports is a `#` with no stop character behind it. */
  lemma {:induction false} ScanBackSound(s: string, i: nat)
    requires i < |s|
    ensures ScanBack(s, i).Some? ==> AnchorWithin(s, i, ScanBack(s, i).value)
    decreases i
  {
    if i > 0 && s[i] != '#' && !IsStop(s[i]) {
      ScanBackSound(s, i - 1);
    }
  }

  /** A `#` with no stop character behind it is what the scan reports. */
  lemma {:induction false} ScanBackComplete(s: string, i: nat, k: nat)
    requires i < |s|
    requires AnchorWithin(s, i, k)
    ensures ScanBack(s, i) == Some(k)
    decreases i
  {
    if k < i {
      assert !IsStop(s[i]);
      ScanBackComplete(s, i - 1, k);
    }
  }

  /** At most one position of a URL is its trailing anchor. */
  lemma TrailingAnchorUnique(s: string, k1: nat, k2: nat)
    requires TrailingAnchor(s, k1) && TrailingAnchor(s, k2)
    ensures k1 == k2
  {
  }

  /**
   * What `clearAnchor` returns: None (undefined) for an absent or empty URL,
   * the part before the trailing anchor when there is one, the URL itself otherwise.
   */
  function Cleared(url: Option<string>): (r: Option<string>)
    ensures r.Some? <==> Truthy(url)
    ensures r.Some? ==> r.value != "" && r.value <= url.value
  {
    if !Truthy(url) then None
    else match ScanBack(url.value, |url.value| - 1)
      case Some(k) => Some(url.value[..k])
      case None => url
  }

  /**
   * The URL is cut exactly at its trailing anchor. The second clause spells
   * out what a trailing anchor is (no stop character after it); the converse,
   * that any cut is at such a position, is `CutOnlyAtTrailingAnchor`.
   */
  lemma CutAtTrailingAnchor(s: string, k: nat)
    requires TrailingAnchor(s, k)
    ensures Cleared(Some(s)) == Some(s[..k])
    ensures forall j :: k < j < |s| ==> s[j] != '#' && s[j] != '!' && s[j] != '/'
  {
    ScanBackComplete(s, |s| - 1, k);
  }

  /** The URL is never cut anywhere but at its trailing anchor. */
  lemma CutOnlyAtTrailingAnchor(s: string)
    requires s != ""
    requires Cleared(Some(s)) != Some(s)
    ensures TrailingAnchor(s, |Cleared(Some(s)).value|)
  {
    ScanBackSound(s, |s| - 1);
  }

  /** Without a trailing anchor the URL is returned unchanged. */
  lemma KeptWithoutTrailingAnchor(s: string)
    requires s != ""
    requires forall k :: !TrailingAnchor(s, k)
    ensures Cleared(Some(s)) == Some(s)
  {
    ScanBackSound(s, |s| - 1);
    var found := ScanBack(s, |s| - 1);
    if found.Some? {
      assert TrailingAnchor(s, found.value);
    }
  }

  /** A `!` or `/` met before any `#` stops the scan and keeps the URL. */
  lemma KeptWhenRouteMarkerFirst(s: string, j: nat)
    requires 1 <= j < |s| && (s[j] == '!' || s[j] == '/')
    requires forall m :: j < m < |s| ==> !IsStop(s[m])
    ensures Cleared(Some(s)) == Some(s)
  {
    forall k: nat | TrailingAnchor(s, k) ensures false {
      if k < j {
        assert IsStop(s[j]);
      }
    }
    KeptWithoutTrailingAnchor(s);
  }

  /** A URL with no `#` past index 0 is kept: in particular a `#` at index 0 is never examined. */
  lemma KeptWithoutHashPastStart(s: string)
    requires s != ""
    requires forall m :: 1 <= m < |s| ==> s[m] != '#'
    ensures Cleared(Some(s)) == Some(s)
  {
  }

  /** A same-page anchor is removed: `http://x/path#frag` becomes `http://x/path`. */
  lemma ExamplePageAnchor()
    ensures Cleared(Some("http://x/path#frag")) == Some("http://x/path")
  {
    var s := "http://x/path#frag";
    assert s[13] == '#';
    CutAtTrailingAnchor(s, 13);
    assert s[..13] == "http://x/path";
  }

  /** A hash-bang route is kept: in `http://x/#!/y` the scan meets `/` first. */
  lemma ExampleHashBangRoute()
    ensures Cleared(Some("http://x/#!/y")) == Some("http://x/#!/y")
  {
    var s := "http://x/#!/y";
    assert s[11] == '/';
    KeptWhenRouteMarkerFirst(s, 11);
  }

  /**
   * `clearAnchor` as the source writes it: the backward loop keeps the cut
   * position in `index`, starting at the length, and breaks at the first stop
   * character.
   */
  method ClearAnchor(url: Option<string>) returns (r: Option<string>)
    ensures r == Cleared(url)
  {
    if !Truthy(url) {
      return None;
    }
    var s := url.value;
    var index := |s|;
    var i := |s| - 1;
    while i > 0
      invariant 0 <= i < |s|
      invariant index == |s|
      invariant ScanBack(s, i) == ScanBack(s, |s| - 1)
    {
      if s[i] == '#' {
        index := i;
        break;
      }
      if s[i] == '!' || s[i] == '/' {
        break;
      }
      i := i - 1;
    }
    if index < |s| {
      r := Some(s[..index]);
    } else {
      r := Some(s);
    }
  }
}
