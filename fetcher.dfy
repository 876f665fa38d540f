/** The page-level checks of src/fetcher.py: whether a search page says it found nothing, and
    which page number its `og:url` meta tag names. Fetching itself is I/O and is a parameter of
    the crawl (see the paginator). */
module Fetcher {
  import opened Wrappers
  import opened Text
  import opened Json
  import opened Collect

  // ---------------------------------------------------------------------------
  // is_zero_results

  /** The phrases the site shows on an empty result page. */
  const ZeroMarkers: seq<string> :=
    ["Niczego nie znaleźliśmy", "Nie znaleźliśmy", "Brak wyników", "0 ogłoszeń"]

  /** Some marker occurs in the page, ignoring case. */
  predicate IsZeroResults(html: string) {
    exists i :: 0 <= i < |ZeroMarkers| && Contains(Lower(html), Lower(ZeroMarkers[i]))
  }

  /** The test ignores the page's letter case. */
  lemma ZeroResultsIgnoresCase(html: string)
    ensures IsZeroResults(Lower(html)) <==> IsZeroResults(html)
  {
    LowerIdempotent(html);
  }

  /** Adding text around a page that already shows a marker keeps it an empty result page. */
  lemma ZeroResultsMonotone(before: string, html: string, after: string)
    requires IsZeroResults(html)
    ensures IsZeroResults(before + html + after)
  {
    var i :| 0 <= i < |ZeroMarkers| && Contains(Lower(html), Lower(ZeroMarkers[i]));
    LowerAppend(before + html, after);
    LowerAppend(before, html);
    ContainsInfix(Lower(before), Lower(html), Lower(after), Lower(ZeroMarkers[i]));
  }

  /** A page showing a marker in capitals counts, since both sides are lower-cased. */
  lemma ShoutedMarkerCounts(before: string, after: string)
    ensures IsZeroResults(before + "BRAK WYNIKÓW" + after)
  {
    var marker := Lower(ZeroMarkers[2]);
    assert Lower("BRAK WYNIKÓW") == marker;
    assert StartsWith(marker, marker);
    assert Contains(marker, marker);
    ContainsInfix(Lower(before), marker, Lower(after), marker);
    LowerAppend(before + "BRAK WYNIKÓW", after);
    LowerAppend(before, "BRAK WYNIKÓW");
  }

  // ---------------------------------------------------------------------------
  // detect_last_page

  /** What `detect_last_page` returns: the number in the first `page=<digits>` of the `og:url`,
      or, when there is none, the `og:url` string itself. */
  datatype LastPage = Found(n: nat) | Raw(url: string)

  /** `re.search(r"page=(\d+)", s)` can match at `i`. */
  predicate PageMatchAt(s: string, i: nat) {
    i + 5 < |s| && s[i..i + 5] == "page=" && IsDigit(s[i + 5])
  }

  /** The leftmost position at or after `from` where the pattern matches. */
  function FindPageMatch(s: string, from: nat): (r: Option<nat>)
    ensures r.Some? ==> from <= r.value && PageMatchAt(s, r.value) &&
                        forall j :: from <= j < r.value ==> !PageMatchAt(s, j)
    ensures r.None? ==> forall j :: from <= j ==> !PageMatchAt(s, j)
    decreases |s| - from
  {
    if from + 5 >= |s| then None
    else if PageMatchAt(s, from) then Some(from)
    else FindPageMatch(s, from + 1)
  }

  /** The greedy `\d+` starting at `j`: the longest run of digits there. */
  function DigitRun(s: string, j: nat): (r: string)
    ensures AllDigits(r) && (|r| > 0 ==> j + |r| <= |s|)
    ensures j + |r| <= |s| ==> s[j..j + |r|] == r
    ensures j + |r| < |s| ==> !IsDigit(s[j + |r|])
    decreases |s| - j
  {
    if j < |s| && IsDigit(s[j]) then [s[j]] + DigitRun(s, j + 1) else []
  }

  /** `detect_last_page` given the `content` of the page's `og:url` tag (`None` when the tag or
      its `content` is missing, where the source reads an unassigned local). */
  function DetectLastPage(ogUrl: Option<string>): (r: Result<LastPage, Exc>)
    ensures ogUrl.None? <==> r == Failure(UnboundLocalError)
    ensures ogUrl.Some? && FindPageMatch(ogUrl.value, 0).None? ==> r == Success(Raw(ogUrl.value))
  {
    match ogUrl
    case None => Failure(UnboundLocalError)
    case Some(url) =>
      match FindPageMatch(url, 0)
      case Some(i) =>
        var digits := DigitRun(url, i + 5);
        Success(Found(DecimalValue(digits)))
      case None => Success(Raw(url))
  }

  /** A found page number is the value of the maximal digit run right after the leftmost
      `page=` that is followed by a digit, as `re.search` finds it. */
  lemma FoundIsPageParameter(url: string)
    requires DetectLastPage(Some(url)).Success? && DetectLastPage(Some(url)).value.Found?
    ensures exists i: nat, digits: string ::
      && PageMatchAt(url, i) && (forall j :: 0 <= j < i ==> !PageMatchAt(url, j))
      && digits == DigitRun(url, i + 5) && |digits| > 0
      && DetectLastPage(Some(url)).value.n == DecimalValue(digits)
  {
    var i := FindPageMatch(url, 0).value;
    var digits := DigitRun(url, i + 5);
    assert digits[0] == url[i + 5];
  }

  /** A URL whose only `page=` is the one written before the canonical digits of `n` names page
      `n`. */
  lemma {:induction false} DetectPageOfUrl(pre: string, n: nat, post: string)
    requires '=' !in pre
    requires |post| > 0 ==> !IsDigit(post[0])
    ensures DetectLastPage(Some(pre + "page=" + NatToDigits(n) + post)) == Success(Found(n))
  {
    var ds := NatToDigits(n);
    var url := pre + ("page=" + (ds + post));
    assert pre + "page=" + ds + post == url;
    PageUrlShape(pre, ds + post);
    var p := |pre|;
    assert url[p + 5] == ds[0];
    FirstPageMatch(url, 0, p);
    DigitRunOf(url, p + 5, ds, post);
    DecimalOfDigits(n);
  }

  /** In `pre + "page=" + rest` with no `=` in `pre`, the pattern's `page=` sits right after
      `pre` and cannot start any earlier. */
  lemma PageUrlShape(pre: string, rest: string)
    requires '=' !in pre
    ensures var url, p := pre + ("page=" + rest), |pre|;
      && p + 5 <= |url| && url[p..p + 5] == "page=" && url[p + 5..] == rest
      && forall j :: 0 <= j < p ==> !PageMatchAt(url, j)
  {
    var url, p := pre + ("page=" + rest), |pre|;
    SliceAfter(pre, "page=" + rest);
    SliceAfter("page=", rest);
    assert url[p..p + 5] == ("page=" + rest)[..5];
    forall j | 0 <= j < p ensures !PageMatchAt(url, j) {
      if j + 5 < |url| {
        assert url[j..j + 5][4] == url[j + 4];
        if j + 4 < p {
          assert url[j + 4] == pre[j + 4];
        } else {
          assert url[j + 4] == "page="[j + 4 - p];
        }
      }
    }
  }

  /** Only the first `page=` counts: a later one in the same URL is ignored. */
  lemma LaterPageParameterIgnored()
    ensures DetectLastPage(Some("?page=3&ref=page=7")) == Success(Found(3))
  {
    assert "?page=3&ref=page=7" == "?" + "page=" + NatToDigits(3) + "&ref=page=7";
    DetectPageOfUrl("?", 3, "&ref=page=7");
  }

  /** The search stops at the first position that matches. */
  lemma {:induction false} FirstPageMatch(s: string, from: nat, i: nat)
    requires from <= i && PageMatchAt(s, i)
    requires forall j :: from <= j < i ==> !PageMatchAt(s, j)
    ensures FindPageMatch(s, from) == Some(i)
    decreases i - from
  {
    if from < i {
      FirstPageMatch(s, from + 1, i);
    }
  }

  /** A maximal run of digits is read whole. */
  lemma {:induction false} DigitRunOf(s: string, j: nat, ds: string, post: string)
    requires AllDigits(ds) && j + |ds| + |post| == |s| && s[j..] == ds + post
    requires |post| > 0 ==> !IsDigit(post[0])
    ensures DigitRun(s, j) == ds
    decreases |ds|
  {
    if |ds| > 0 {
      assert s[j] == ds[0];
      assert s[j + 1..] == ds[1..] + post;
      DigitRunOf(s, j + 1, ds[1..], post);
      assert ds == [ds[0]] + ds[1..];
    } else if j < |s| {
      assert s[j] == post[0];
    }
  }

  /** The canonical URL of the fourth results page. */
  lemma FourthPage()
    ensures DetectLastPage(Some(KadjarPage4)) == Success(Found(4))
  {
    KadjarPage4Parts();
    DetectPageOfUrl(KadjarSearch, 4, "");
  }

  const KadjarHost := "https://www.otomoto.pl/"
  const KadjarPath := "osobowe/kadjar/od-2019?"
  const KadjarSearch := KadjarHost + KadjarPath
  const KadjarPage4 := KadjarSearch + "page=4"

  lemma KadjarPage4Parts()
    ensures '=' !in KadjarSearch
    ensures KadjarPage4 == KadjarSearch + "page=" + NatToDigits(4) + ""
  {
    assert '=' !in KadjarHost && '=' !in KadjarPath;
    assert "page=4" == "page=" + "4";
    assert NatToDigits(4) == "4";
  }
}
