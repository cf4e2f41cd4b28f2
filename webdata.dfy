/**
 * Extraction of the web-app init data from the URL of the web view
 * (`Slapper.get_tg_web_data`, bot/core/slapper.py:56-59): the text after the
 * first `tgWebAppData=` and before the first `&tgWebAppVersion` that follows
 * it, URL-decoded twice.
 */
module WebData {
  import opened Wrappers

  const DataMarker := "tgWebAppData="
  const VersionMarker := "&tgWebAppVersion"

  /** `pat` occurs in `s` starting at position `i`. */
  predicate OccursAt(s: string, pat: string, i: int)
  {
    0 <= i && i + |pat| <= |s| && s[i..i + |pat|] == pat
  }

  /** The leftmost occurrence of `pat` in `s` at or after `from` (Python's `s.find(pat, from)`). */
  function FindFrom(s: string, pat: string, from: nat): (r: Option<nat>)
    ensures r.Some? ==> from <= r.value && OccursAt(s, pat, r.value)
    ensures r.Some? ==> forall i :: from <= i < r.value ==> !OccursAt(s, pat, i)
    ensures r.None? ==> forall i :: from <= i ==> !OccursAt(s, pat, i)
    decreases |s| - from
  {
    if from + |pat| > |s| then None
    else if OccursAt(s, pat, from) then Some(from)
    else FindFrom(s, pat, from + 1)
  }

  /**
   * `s.split(sep, maxsplit=1)`: one part when `sep` does not occur, otherwise
   * the text before and after its leftmost occurrence. Python refuses an
   * empty separator.
   */
  function SplitOnce(s: string, sep: string): (parts: seq<string>)
    requires sep != []
    ensures |parts| == 1 || |parts| == 2
    ensures |parts| == 1 <==> forall i :: !OccursAt(s, sep, i)
    ensures |parts| == 1 ==> parts[0] == s
    ensures |parts| == 2 ==> s == parts[0] + sep + parts[1]
    ensures |parts| == 2 ==> forall i :: 0 <= i < |parts[0]| ==> !OccursAt(s, sep, i)
  {
    match FindFrom(s, sep, 0)
    case None => [s]
    case Some(i) =>
      assert s[i..i + |sep|] == sep;
      assert s == s[..i] + s[i..i + |sep|] + s[i + |sep|..];
      [s[..i], s[i + |sep|..]]
  }

  /**
   * `auth_url.split('tgWebAppData=', maxsplit=1)[1].split('&tgWebAppVersion', maxsplit=1)[0]`;
   * `None` where the first index raises `IndexError`, which `get_tg_web_data`
   * catches and answers with `None`.
   */
  function RawWebData(url: string): (r: Option<string>)
    ensures r.None? <==> forall i :: !OccursAt(url, DataMarker, i)
    ensures r.Some? ==> forall i :: !OccursAt(r.value, VersionMarker, i)
  {
    var outer := SplitOnce(url, DataMarker);
    if |outer| < 2 then None
    else
      var inner := SplitOnce(outer[1], VersionMarker);
      assert forall i :: OccursAt(inner[0], VersionMarker, i) ==> OccursAt(outer[1], VersionMarker, i) by {
        forall i | OccursAt(inner[0], VersionMarker, i) ensures OccursAt(outer[1], VersionMarker, i) {
          if |inner| == 2 {
            assert outer[1] == inner[0] + (VersionMarker + inner[1]);
            assert outer[1][i..i + |VersionMarker|] == inner[0][i..i + |VersionMarker|];
          }
        }
      }
      Some(inner[0])
  }

  /** The init data passed to `login`: the raw field, decoded twice by `unquote`. */
  function TgWebData(url: string, unquote: string -> string): (r: Option<string>)
    ensures r.Some? <==> RawWebData(url).Some?
    ensures r.Some? ==> r.value == unquote(unquote(RawWebData(url).value))
  {
    match RawWebData(url)
    case None => None
    case Some(raw) => Some(unquote(unquote(raw)))
  }

  /** The init data of a URL built around the markers is the data between them, decoded twice. */
  lemma DecodesExtractedData(prefix: string, data: string, suffix: string, unquote: string -> string)
    requires forall i :: 0 <= i < |prefix| ==> !OccursAt(prefix + DataMarker, DataMarker, i)
    requires forall i :: 0 <= i < |data| ==> !OccursAt(data + VersionMarker, VersionMarker, i)
    ensures TgWebData(prefix + DataMarker + data + VersionMarker + suffix, unquote) == Some(unquote(unquote(data)))
  {
    ExtractsDataBeforeVersion(prefix, data, suffix);
  }

  /** Without a version marker after it, the init data is the rest of the URL, decoded twice. */
  lemma DecodesExtractedDataToEnd(prefix: string, data: string, unquote: string -> string)
    requires forall i :: 0 <= i < |prefix| ==> !OccursAt(prefix + DataMarker, DataMarker, i)
    requires forall i :: !OccursAt(data, VersionMarker, i)
    ensures TgWebData(prefix + DataMarker + data, unquote) == Some(unquote(unquote(data)))
  {
    ExtractsDataToEnd(prefix, data);
  }

  /** An occurrence that ends inside `a` is unaffected by what follows `a`. */
  lemma OccursAtAppend(a: string, b: string, pat: string, i: int)
    requires i + |pat| <= |a|
    ensures OccursAt(a + b, pat, i) <==> OccursAt(a, pat, i)
  {
    if 0 <= i {
      assert (a + b)[i..i + |pat|] == a[i..i + |pat|];
    }
  }

  /**
   * A URL assembled as prefix, `tgWebAppData=`, data, `&tgWebAppVersion`,
   * suffix yields exactly the data, provided the markers shown are the first
   * ones.
   */
  lemma {:induction false} ExtractsDataBeforeVersion(prefix: string, data: string, suffix: string)
    requires forall i :: 0 <= i < |prefix| ==> !OccursAt(prefix + DataMarker, DataMarker, i)
    requires forall i :: 0 <= i < |data| ==> !OccursAt(data + VersionMarker, VersionMarker, i)
    ensures RawWebData(prefix + DataMarker + data + VersionMarker + suffix) == Some(data)
  {
    var rest := data + VersionMarker + suffix;
    var url := prefix + DataMarker + rest;
    assert prefix + DataMarker + data + VersionMarker + suffix == url;
    FirstOccurrence(prefix, DataMarker, rest);
    assert data + VersionMarker + suffix == rest;
    FirstOccurrence(data, VersionMarker, suffix);
  }

  /** Without a version marker after it, the data runs to the end of the URL. */
  lemma {:induction false} ExtractsDataToEnd(prefix: string, data: string)
    requires forall i :: 0 <= i < |prefix| ==> !OccursAt(prefix + DataMarker, DataMarker, i)
    requires forall i :: !OccursAt(data, VersionMarker, i)
    ensures RawWebData(prefix + DataMarker + data) == Some(data)
  {
    FirstOccurrence(prefix, DataMarker, data);
  }

  /** If `sep` first occurs right after `a`, splitting `a + sep + b` gives `a` and `b`. */
  lemma FirstOccurrence(a: string, sep: string, b: string)
    requires sep != []
    requires forall i :: 0 <= i < |a| ==> !OccursAt(a + sep, sep, i)
    ensures SplitOnce(a + sep + b, sep) == [a, b]
  {
    var s := a + sep + b;
    assert s == (a + sep) + b;
    assert OccursAt(a + sep, sep, |a|);
    OccursAtAppend(a + sep, b, sep, |a|);
    forall i | 0 <= i < |a|
      ensures !OccursAt(s, sep, i)
    {
      OccursAtAppend(a + sep, b, sep, i);
    }
    var parts := SplitOnce(s, sep);
    assert |parts| == 2;
    if |parts[0]| < |a| {
      assert OccursAt(s, sep, |parts[0]|);
    }
    assert |parts[0]| == |a|;
    assert parts[0] == s[..|a|] == a;
    assert parts[1] == s[|a| + |sep|..] == b;
  }
}
