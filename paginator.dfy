/** The crawl of src/paginator.py: `iterate_search_pages` requests results pages 1, 2, ... and
    keeps those whose JSON-LD block lists offers, stopping on a failed fetch, an empty-results
    page or the detected last page; `parse_search_page` merges a page's two extractions; and the
    batch at the end of the module runs the crawl once per car and parses every kept page.
    Fetching is a function of the URL given as a parameter; printing, sleeping and snapshots are
    not modelled. */
module Paginator {
  import opened Wrappers
  import opened Text
  import opened Json
  import opened Collect
  import opened Html
  import opened Fetcher
  import opened UrlBuilder
  import opened GraphqlParser
  import opened JsonLdParser
  import opened Merger

  /** Everything the crawl consults outside the repository: the fetch (`None` for a failed
      request), the page-level HTML lookups and the JSON decoder. */
  datatype Env = Env(fetch: string -> Option<string>, soup: Soup, loads: Loads)

  /** The two variables the loop updates: `pages_html` and `detected_last_page`. */
  datatype State = State(pagesHtml: seq<string>, detected: Option<int>)

  /** How one pass of the loop body ends: with the next page, with `break`, or with an exception
      (raised before or after the page was fetched). */
  datatype Outcome = Continue(next: State) | Stop(last: State) | Raise(error: Exc, fetched: bool)

  /** `detect_last_page(html) - 1`: a page number, a raw string (`str - int` raises `TypeError`),
      or the unbound local. */
  function DetectedLastPage(ogUrl: Option<string>): (r: Result<int, Exc>)
    ensures r.Success? <==> DetectLastPage(ogUrl).Success? && DetectLastPage(ogUrl).value.Found?
    ensures r.Success? ==> r.value == DetectLastPage(ogUrl).value.n - 1
    ensures ogUrl.None? ==> r == Failure(UnboundLocalError)
    ensures DetectLastPage(ogUrl).Success? && DetectLastPage(ogUrl).value.Raw? ==> r == Failure(TypeError)
  {
    var found :- DetectLastPage(ogUrl);
    match found
    case Found(n) => Success(n - 1)
    case Raw(_) => Failure(TypeError)
  }

  /** Lines 61-77: until a last page is known, a page whose JSON-LD lists offers is kept, and the
      first one that lists none sets the last page instead. */
  function Absorb(env: Env, html: string, st: State): (r: Result<State, Exc>)
    ensures st.detected.Some? ==> r == Success(st)
    ensures r.Success? && r.value.pagesHtml == st.pagesHtml ==> r.value.detected.Some?
    ensures r.Success? && r.value.pagesHtml != st.pagesHtml ==>
      && st.detected.None? && r.value == State(st.pagesHtml + [html], None)
      && JsonLd(html, env.soup, env.loads).Success? && |JsonLd(html, env.soup, env.loads).value| > 0
    ensures st.detected.None? && JsonLd(html, env.soup, env.loads).Success? &&
            |JsonLd(html, env.soup, env.loads).value| > 0 ==>
      r == Success(State(st.pagesHtml + [html], None))
    ensures st.detected.None? && JsonLd(html, env.soup, env.loads) == Success([]) ==>
      r == match DetectedLastPage(env.soup.ogUrl(html))
           case Success(last) => Success(State(st.pagesHtml, Some(last)))
           case Failure(e) => Failure(e)
    ensures st.detected.None? && JsonLd(html, env.soup, env.loads).Failure? ==>
      r == Failure(JsonLd(html, env.soup, env.loads).error)
  {
    if st.detected.Some? then Success(st)
    else
      var jsonList :- JsonLd(html, env.soup, env.loads);
      if |jsonList| > 0 then Success(State(st.pagesHtml + [html], None))
      else
        var last :- DetectedLastPage(env.soup.ogUrl(html));
        Success(State(st.pagesHtml, Some(last)))
  }

  /** One pass of the loop body for `page`. */
  function Step(env: Env, args: SearchArgs, page: int, st: State): Outcome {
    match BuildSearchUrl(args, Some(page))
    case Failure(e) => Raise(e, false)
    case Success(url) =>
      match env.fetch(url)
      case None => Stop(st)
      case Some(html) =>
        if IsZeroResults(html) then Stop(st)
        else
          match Absorb(env, html, st)
          case Failure(e) => Raise(e, true)
          case Success(next) =>
            if next.detected.Some? && page >= next.detected.value then Stop(next) else Continue(next)
  }

  /** One pass for each page number, as a value. */
  function Pass(env: Env, args: SearchArgs): (int, State) -> Outcome {
    (page, st) => Step(env, args, page, st)
  }

  /** What the crawl returns or raises, and the page numbers it requested, in order. */
  datatype Crawl = Crawl(result: Result<seq<string>, Exc>, fetched: seq<int>)

  /** The loop `for page in range(page, max_pages + 1)` in state `st`, whose body is `visit`. */
  function Drive(visit: (int, State) -> Outcome, maxPages: int, page: int, st: State): Crawl
    decreases maxPages - page + 1
  {
    if page > maxPages then Crawl(Success(st.pagesHtml), [])
    else
      match visit(page, st)
      case Raise(e, fetched) => Crawl(Failure(e), if fetched then [page] else [])
      case Stop(last) => Crawl(Success(last.pagesHtml), [page])
      case Continue(next) =>
        var rest := Drive(visit, maxPages, page + 1, next);
        Crawl(rest.result, [page] + rest.fetched)
  }

  /** `iterate_search_pages(base_args, session, max_pages)` */
  function SearchPages(env: Env, args: SearchArgs, maxPages: int): Crawl {
    Drive(Pass(env, args), maxPages, 1, State([], None))
  }

  /** A crawl continued after the pages `before` were already requested. */
  function After(before: seq<int>, c: Crawl): Crawl {
    Crawl(c.result, before + c.fetched)
  }

  /** The ways the loop ends or goes on, as `Drive` takes them, seen after the pages `before`. */
  lemma DriveDone(visit: (int, State) -> Outcome, maxPages: int, page: int, st: State, before: seq<int>)
    requires page > maxPages
    ensures After(before, Drive(visit, maxPages, page, st)) == Crawl(Success(st.pagesHtml), before)
  {
    assert before + [] == before;
  }

  lemma DriveRaise(visit: (int, State) -> Outcome, maxPages: int, page: int, st: State, e: Exc, fetched: bool,
                   before: seq<int>)
    requires page <= maxPages && visit(page, st) == Raise(e, fetched)
    ensures After(before, Drive(visit, maxPages, page, st)) ==
            Crawl(Failure(e), if fetched then before + [page] else before)
  {
    assert before + [] == before;
  }

  lemma DriveStop(visit: (int, State) -> Outcome, maxPages: int, page: int, st: State, last: State,
                  before: seq<int>)
    requires page <= maxPages && visit(page, st) == Stop(last)
    ensures After(before, Drive(visit, maxPages, page, st)) == Crawl(Success(last.pagesHtml), before + [page])
  {
  }

  lemma DriveContinue(visit: (int, State) -> Outcome, maxPages: int, page: int, st: State, next: State,
                      before: seq<int>)
    requires page <= maxPages && visit(page, st) == Continue(next)
    ensures After(before, Drive(visit, maxPages, page, st)) ==
            After(before + [page], Drive(visit, maxPages, page + 1, next))
  {
    var rest := Drive(visit, maxPages, page + 1, next);
    assert (before + [page]) + rest.fetched == before + ([page] + rest.fetched);
  }

  lemma StepNoUrl(env: Env, args: SearchArgs, page: int, st: State)
    requires BuildSearchUrl(args, Some(page)).Failure?
    ensures Step(env, args, page, st) == Raise(BuildSearchUrl(args, Some(page)).error, false)
  {
  }

  lemma StepNoPage(env: Env, args: SearchArgs, page: int, st: State, url: string)
    requires BuildSearchUrl(args, Some(page)) == Success(url)
    requires env.fetch(url).None? || IsZeroResults(env.fetch(url).value)
    ensures Step(env, args, page, st) == Stop(st)
  {
  }

  lemma StepAbsorb(env: Env, args: SearchArgs, page: int, st: State, url: string, html: string)
    requires BuildSearchUrl(args, Some(page)) == Success(url)
    requires env.fetch(url) == Some(html) && !IsZeroResults(html)
    ensures Step(env, args, page, st) ==
      match Absorb(env, html, st)
      case Failure(e) => Raise(e, true)
      case Success(next) =>
        if next.detected.Some? && page >= next.detected.value then Stop(next) else Continue(next)
  {
  }

  /** The loop body for `page` (lines 47-81), given the loop variables. */
  method VisitPage(env: Env, args: SearchArgs, page: int, pagesHtml: seq<string>, detectedLastPage: Option<int>)
    returns (o: Outcome)
    ensures o == Step(env, args, page, State(pagesHtml, detectedLastPage))
  {
    var st := State(pagesHtml, detectedLastPage);
    var url := BuildSearchUrl(args, Some(page));
    if url.Failure? {
      StepNoUrl(env, args, page, st);
      return Raise(url.error, false);
    }
    var html := env.fetch(url.value);
    if html.None? || IsZeroResults(html.value) {
      StepNoPage(env, args, page, st, url.value);
      return Stop(st);
    }
    StepAbsorb(env, args, page, st, url.value, html.value);
    var pages, detected := pagesHtml, detectedLastPage;
    if detected.None? {
      var jsonList := ParseJsonLd(html.value, env.soup, env.loads);
      if jsonList.Failure? {
        return Raise(jsonList.error, true);
      }
      if |jsonList.value| > 0 {
        pages := pages + [html.value];
      } else {
        var last := DetectedLastPage(env.soup.ogUrl(html.value));
        if last.Failure? {
          return Raise(last.error, true);
        }
        detected := Some(last.value);
      }
    }
    assert Absorb(env, html.value, st) == Success(State(pages, detected));
    if detected.Some? && page >= detected.value {
      return Stop(State(pages, detected));
    }
    return Continue(State(pages, detected));
  }

  method IterateSearchPages(env: Env, args: SearchArgs, maxPages: int)
    returns (r: Result<seq<string>, Exc>, fetched: seq<int>)
    ensures Crawl(r, fetched) == SearchPages(env, args, maxPages)
  {
    var pagesHtml: seq<string> := [];
    var detectedLastPage: Option<int> := None;
    fetched := [];
    var page := 1;
    ghost var visit := Pass(env, args);
    assert [] + Drive(visit, maxPages, 1, State([], None)).fetched == SearchPages(env, args, maxPages).fetched;
    while page <= maxPages
      invariant SearchPages(env, args, maxPages) == After(fetched, Drive(visit, maxPages, page, State(pagesHtml, detectedLastPage)))
      decreases maxPages - page + 1
    {
      var st := State(pagesHtml, detectedLastPage);
      var outcome := VisitPage(env, args, page, pagesHtml, detectedLastPage);
      assert visit(page, st) == outcome;
      match outcome
      case Raise(e, wasFetched) =>
        DriveRaise(visit, maxPages, page, st, e, wasFetched, fetched);
        if wasFetched {
          fetched := fetched + [page];
        }
        return Failure(e), fetched;
      case Stop(last) =>
        DriveStop(visit, maxPages, page, st, last, fetched);
        fetched := fetched + [page];
        return Success(last.pagesHtml), fetched;
      case Continue(next) =>
        DriveContinue(visit, maxPages, page, st, next, fetched);
        fetched := fetched + [page];
        pagesHtml, detectedLastPage := next.pagesHtml, next.detected;
        page := page + 1;
    }
    DriveDone(visit, maxPages, page, State(pagesHtml, detectedLastPage), fetched);
    r := Success(pagesHtml);
  }

  // ---------------------------------------------------------------------------
  // Properties of the crawl

  /** The page numbers requested are `page, page + 1, ...`, one per pass, and never more than
      the passes left before `maxPages`. */
  lemma {:induction false} DriveFetches(visit: (int, State) -> Outcome, maxPages: int, page: int, st: State)
    ensures var c := Drive(visit, maxPages, page, st);
      && (forall i :: 0 <= i < |c.fetched| ==> c.fetched[i] == page + i)
      && |c.fetched| <= if page <= maxPages then maxPages - page + 1 else 0
    decreases maxPages - page + 1
  {
    if page <= maxPages {
      match visit(page, st)
      case Raise(_, _) =>
      case Stop(_) =>
      case Continue(next) =>
        DriveFetches(visit, maxPages, page + 1, next);
    }
  }

  /** At most `max_pages` requests, for pages 1, 2, ... in order. */
  lemma SearchFetches(env: Env, args: SearchArgs, maxPages: int)
    ensures var fetched := SearchPages(env, args, maxPages).fetched;
      && (forall i :: 0 <= i < |fetched| ==> fetched[i] == i + 1)
      && |fetched| <= if maxPages >= 0 then maxPages else 0
  {
    DriveFetches(Pass(env, args), maxPages, 1, State([], None));
  }

  /** `next` holds the pages of `st`, and then possibly one more, `kept` for `page`. */
  predicate Extends(st: State, next: State, page: int, kept: (int, string) -> bool) {
    next.pagesHtml == st.pagesHtml ||
    (&& st.detected.None?
     && |next.pagesHtml| == |st.pagesHtml| + 1
     && next.pagesHtml[..|st.pagesHtml|] == st.pagesHtml
     && kept(page, next.pagesHtml[|st.pagesHtml|]))
  }

  /** A pass that keeps pages only by appending one `kept` page while no last page is known, and
      that goes on with the pages unchanged only once a last page is known or when none was. */
  predicate KeepsPages(page: int, st: State, o: Outcome, kept: (int, string) -> bool) {
    match o
    case Raise(_, _) => true
    case Stop(next) => Extends(st, next, page, kept)
    case Continue(next) =>
      Extends(st, next, page, kept) &&
      (next.pagesHtml == st.pagesHtml ==> next.detected.Some?) &&
      (next.pagesHtml != st.pagesHtml ==> next.detected.None?)
  }

  /** The pages a crawl from `page` returns: the pages kept so far, then `kept` pages for
      `page, page + 1, ...` without a gap, at most one per request; nothing more once a last page
      is known. */
  lemma {:induction false} DriveKeeps(visit: (int, State) -> Outcome, kept: (int, string) -> bool,
                                      maxPages: int, page: int, st: State)
    requires forall p, s :: KeepsPages(p, s, visit(p, s), kept)
    requires Drive(visit, maxPages, page, st).result.Success?
    ensures var c := Drive(visit, maxPages, page, st);
      var ps, n := c.result.value, |st.pagesHtml|;
      && n <= |ps| && ps[..n] == st.pagesHtml
      && (forall j :: n <= j < |ps| ==> kept(page + (j - n), ps[j]))
      && |ps| - n <= |c.fetched|
      && (st.detected.Some? ==> ps == st.pagesHtml)
    decreases maxPages - page + 1
  {
    if page <= maxPages {
      assert KeepsPages(page, st, visit(page, st), kept);
      match visit(page, st)
      case Raise(_, _) =>
      case Stop(next) =>
      case Continue(next) =>
        DriveKeeps(visit, kept, maxPages, page + 1, next);
        var ps := Drive(visit, maxPages, page + 1, next).result.value;
        var n := |st.pagesHtml|;
        if next.pagesHtml != st.pagesHtml {
          assert ps[..n] == next.pagesHtml[..n];
          forall j | n <= j < |ps| ensures kept(page + (j - n), ps[j]) {
            if j == n {
              assert ps[j] == next.pagesHtml[n];
            }
          }
        }
    }
  }

  /** Page `p` contributes `html`: its URL builds, fetching it gives `html`, which is not an empty
      result page, and its JSON-LD block lists at least one offer. */
  predicate Kept(env: Env, args: SearchArgs, p: int, html: string) {
    && BuildSearchUrl(args, Some(p)).Success?
    && env.fetch(BuildSearchUrl(args, Some(p)).value) == Some(html)
    && !IsZeroResults(html)
    && JsonLd(html, env.soup, env.loads).Success?
    && |JsonLd(html, env.soup, env.loads).value| > 0
  }

  function KeptBy(env: Env, args: SearchArgs): (int, string) -> bool {
    (p, html) => Kept(env, args, p, html)
  }

  /** A pass appends only the page it fetched, when that page lists offers, and only while no
      last page is known. */
  lemma StepKeeps(env: Env, args: SearchArgs, page: int, st: State)
    ensures KeepsPages(page, st, Step(env, args, page, st), KeptBy(env, args))
  {
    var url := BuildSearchUrl(args, Some(page));
    if url.Failure? {
      StepNoUrl(env, args, page, st);
      return;
    }
    var html := env.fetch(url.value);
    if html.None? || IsZeroResults(html.value) {
      StepNoPage(env, args, page, st, url.value);
      return;
    }
    StepKeepsFetched(env, args, page, st, url.value, html.value);
  }

  lemma StepKeepsFetched(env: Env, args: SearchArgs, page: int, st: State, url: string, html: string)
    requires BuildSearchUrl(args, Some(page)) == Success(url)
    requires env.fetch(url) == Some(html) && !IsZeroResults(html)
    ensures KeepsPages(page, st, Step(env, args, page, st), KeptBy(env, args))
  {
    StepAbsorb(env, args, page, st, url, html);
    var next := Absorb(env, html, st);
    if next.Success? && next.value.pagesHtml != st.pagesHtml {
      assert next.value.pagesHtml[..|st.pagesHtml|] == st.pagesHtml;
      assert Kept(env, args, page, html);
    }
  }

  /** What `iterate_search_pages` returns is the HTML of pages 1..m without a gap, every one of
      which was fetched, is not an empty result page and lists offers in its JSON-LD block. */
  lemma SearchKeepsPrefix(env: Env, args: SearchArgs, maxPages: int)
    requires SearchPages(env, args, maxPages).result.Success?
    ensures var c := SearchPages(env, args, maxPages);
      && |c.result.value| <= |c.fetched|
      && forall j :: 0 <= j < |c.result.value| ==> Kept(env, args, j + 1, c.result.value[j])
  {
    var kept := KeptBy(env, args);
    PassKeeps(env, args);
    DriveKeepsFromStart(Pass(env, args), kept, maxPages);
    var ps := SearchPages(env, args, maxPages).result.value;
    forall j | 0 <= j < |ps| ensures Kept(env, args, j + 1, ps[j]) {
      assert kept(j + 1, ps[j]);
    }
  }

  /** DriveKeeps for a crawl that starts at page 1 with nothing kept. */
  lemma DriveKeepsFromStart(visit: (int, State) -> Outcome, kept: (int, string) -> bool, maxPages: int)
    requires forall p, s :: KeepsPages(p, s, visit(p, s), kept)
    requires Drive(visit, maxPages, 1, State([], None)).result.Success?
    ensures var c := Drive(visit, maxPages, 1, State([], None));
      && |c.result.value| <= |c.fetched|
      && forall j :: 0 <= j < |c.result.value| ==> kept(j + 1, c.result.value[j])
  {
    DriveKeeps(visit, kept, maxPages, 1, State([], None));
    var ps := Drive(visit, maxPages, 1, State([], None)).result.value;
    forall j | 0 <= j < |ps| ensures kept(j + 1, ps[j]) {
      assert kept(1 + (j - 0), ps[j]);
    }
  }

  /** A pass that, with no last page known, goes on with exactly one more page kept. */
  predicate Grows(st: State, o: Outcome) {
    o.Continue? && o.next.detected.None? && |o.next.pagesHtml| == |st.pagesHtml| + 1
  }

  /** When every pass for `page..k` grows the kept pages, a crawl that returns returns at least
      one page more than it started with for each of them. */
  lemma {:induction false} DriveGrows(visit: (int, State) -> Outcome, kept: (int, string) -> bool,
                                      maxPages: int, page: int, st: State, k: int)
    requires forall p, s :: KeepsPages(p, s, visit(p, s), kept)
    requires page <= k + 1 && k <= maxPages && st.detected.None?
    requires forall p, s: State :: page <= p <= k && s.detected.None? ==> Grows(s, visit(p, s))
    ensures var c := Drive(visit, maxPages, page, st);
      c.result.Success? ==> |c.result.value| >= |st.pagesHtml| + (k + 1 - page)
    decreases k + 1 - page
  {
    if page <= k {
      assert Grows(st, visit(page, st));
      var next := visit(page, st).next;
      DriveGrows(visit, kept, maxPages, page + 1, next, k);
    } else if Drive(visit, maxPages, page, st).result.Success? {
      DriveKeeps(visit, kept, maxPages, page, st);
    }
  }

  /** A page that lists offers, fetched while no last page is known, is kept and the crawl goes
      on. */
  lemma StepKeepsOffers(env: Env, args: SearchArgs, page: int, st: State, html: string)
    requires Kept(env, args, page, html) && st.detected.None?
    ensures Step(env, args, page, st) == Continue(State(st.pagesHtml + [html], None))
  {
    StepAbsorb(env, args, page, st, BuildSearchUrl(args, Some(page)).value, html);
  }

  /** Page `p` of the search is fetched, is not an empty results page and lists offers. */
  predicate ListsOffers(env: Env, args: SearchArgs, p: int) {
    && BuildSearchUrl(args, Some(p)).Success?
    && env.fetch(BuildSearchUrl(args, Some(p)).value).Some?
    && Kept(env, args, p, env.fetch(BuildSearchUrl(args, Some(p)).value).value)
  }

  /** If pages 1..k all list offers, a crawl that returns keeps every one of them, in order. */
  lemma SearchKeepsEveryPage(env: Env, args: SearchArgs, maxPages: int, k: int)
    requires 0 <= k <= maxPages
    requires forall p :: 1 <= p <= k ==> ListsOffers(env, args, p)
    ensures var c := SearchPages(env, args, maxPages);
      c.result.Success? ==>
        && |c.result.value| >= k
        && forall j :: 0 <= j < k ==> Kept(env, args, j + 1, c.result.value[j])
  {
    var visit := Pass(env, args);
    PassKeeps(env, args);
    forall p, s: State | 1 <= p <= k && s.detected.None? ensures Grows(s, visit(p, s)) {
      assert ListsOffers(env, args, p);
      var html := env.fetch(BuildSearchUrl(args, Some(p)).value).value;
      StepKeepsOffers(env, args, p, s, html);
    }
    DriveGrows(visit, KeptBy(env, args), maxPages, 1, State([], None), k);
    if SearchPages(env, args, maxPages).result.Success? {
      SearchKeepsPrefix(env, args, maxPages);
    }
  }

  /** Every pass of the crawl keeps pages in the way KeepsPages describes. */
  lemma PassKeeps(env: Env, args: SearchArgs)
    ensures forall p, s :: KeepsPages(p, s, Pass(env, args)(p, s), KeptBy(env, args))
  {
    forall p, s ensures KeepsPages(p, s, Pass(env, args)(p, s), KeptBy(env, args)) {
      StepKeeps(env, args, p, s);
    }
  }

  /** The first page whose JSON-LD block lists no offers is not kept; it sets the last page to
      `detect_last_page(html) - 1`, and the crawl stops there when its number is already past it. */
  lemma StepDetects(env: Env, args: SearchArgs, page: int, st: State, html: string, last: int)
    requires st.detected.None?
    requires BuildSearchUrl(args, Some(page)).Success?
    requires env.fetch(BuildSearchUrl(args, Some(page)).value) == Some(html) && !IsZeroResults(html)
    requires JsonLd(html, env.soup, env.loads) == Success([])
    requires DetectedLastPage(env.soup.ogUrl(html)) == Success(last)
    ensures Step(env, args, page, st) ==
      if page >= last then Stop(State(st.pagesHtml, Some(last))) else Continue(State(st.pagesHtml, Some(last)))
  {
    StepAbsorb(env, args, page, st, BuildSearchUrl(args, Some(page)).value, html);
  }

  /** Once a last page `d` is known, a pass changes nothing and goes on only below `d`. */
  predicate Settled(page: int, st: State, o: Outcome) {
    st.detected.Some? && o.Continue? ==> o.next == st && page < st.detected.value
  }

  lemma StepSettled(env: Env, args: SearchArgs, page: int, st: State)
    ensures Settled(page, st, Step(env, args, page, st))
  {
    var url := BuildSearchUrl(args, Some(page));
    if url.Failure? {
      StepNoUrl(env, args, page, st);
      return;
    }
    var html := env.fetch(url.value);
    if html.None? || IsZeroResults(html.value) {
      StepNoPage(env, args, page, st, url.value);
      return;
    }
    StepAbsorb(env, args, page, st, url.value, html.value);
  }

  /** Once a last page `d` is known it never changes, and every page requested before the final
      one is numbered below `d`: the crawl stops after the first page numbered `d` or more. */
  lemma {:induction false} DriveAfterDetection(visit: (int, State) -> Outcome, maxPages: int, page: int, st: State)
    requires forall p, s :: Settled(p, s, visit(p, s))
    requires st.detected.Some?
    ensures var c := Drive(visit, maxPages, page, st);
      forall i :: 0 <= i < |c.fetched| - 1 ==> c.fetched[i] < st.detected.value
    decreases maxPages - page + 1
  {
    if page <= maxPages {
      assert Settled(page, st, visit(page, st));
      match visit(page, st)
      case Raise(_, _) =>
      case Stop(_) =>
      case Continue(next) =>
        DriveAfterDetection(visit, maxPages, page + 1, next);
        DriveFetches(visit, maxPages, page + 1, next);
    }
  }

  /** From the page that detects the last page `d` on, the crawl requests pages below `d` only,
      up to the one that stops it. */
  lemma SearchStopsAtLastPage(env: Env, args: SearchArgs, maxPages: int, page: int, st: State)
    requires st.detected.Some?
    ensures var c := Drive(Pass(env, args), maxPages, page, st);
      forall i :: 0 <= i < |c.fetched| - 1 ==> c.fetched[i] < st.detected.value
  {
    var visit := Pass(env, args);
    forall p, s ensures Settled(p, s, visit(p, s)) {
      StepSettled(env, args, p, s);
    }
    DriveAfterDetection(visit, maxPages, page, st);
  }

  // ---------------------------------------------------------------------------
  // parse_search_page

  /** What `parse_search_page(html)` returns or raises: the GraphQL listings of the page, each
      merged with its JSON-LD offer. */
  function SearchPage(env: Env, html: string): (r: Result<seq<map<string, Json>>, Exc>)
    ensures r.Success? <==>
      JsonLd(html, env.soup, env.loads).Success? && GraphqlListings(html, env.soup, env.loads).Success?
    ensures r.Success? ==> |r.value| == |GraphqlListings(html, env.soup, env.loads).value|
    ensures r.Success? ==>
      r.value == Merged(JsonLd(html, env.soup, env.loads).value, GraphqlListings(html, env.soup, env.loads).value)
  {
    var jsonld :- JsonLd(html, env.soup, env.loads);
    var graphql :- GraphqlListings(html, env.soup, env.loads);
    Success(Merged(jsonld, graphql))
  }

  method ParseSearchPage(env: Env, html: string) returns (r: Result<seq<map<string, Json>>, Exc>)
    ensures r == SearchPage(env, html)
  {
    var jsonld :- ParseJsonLd(html, env.soup, env.loads);
    var graphql :- ParseGraphql(html, env.soup, env.loads);
    var merged := MergeJsonldAndGraphql(jsonld, graphql);
    return Success(merged);
  }

  // ---------------------------------------------------------------------------
  // The batch run (lines 92-133)

  /** The cars the batch searches for, as (brand, model). */
  const Cars: seq<(string, string)> := [
    ("Volkswagen", "Taigo"), ("Seat", "Ateca"), ("Ford", "Kuga"),
    ("Skoda", "Kamiq"), ("Renault", "Kadjar"), ("Suzuki", "SX4-S-Cross")]

  /** `base_args` once `base_args.update(model)` has set the car's brand and model. */
  function CarArgs(car: (string, string)): (a: SearchArgs)
    ensures a.brand == car.0 && a.model == car.1
  {
    SearchArgs(car.0, car.1, 2019, 50000, 75000, 2022, 150000, "petrol", "manual", true)
  }

  /** The crawl for one car, ten pages at most. */
  function CarPages(env: Env): ((string, string)) -> Result<seq<string>, Exc> {
    car => SearchPages(env, CarArgs(car), 10).result
  }

  /** The `pages` list the batch collects over `cars`, or the first exception. */
  function BatchPages(env: Env, cars: seq<(string, string)>): (r: Result<seq<string>, Exc>)
  {
    var chunks :- Traverse(cars, CarPages(env));
    Success(Concat(chunks))
  }

  method CollectPages(env: Env, cars: seq<(string, string)>) returns (r: Result<seq<string>, Exc>)
    ensures r == BatchPages(env, cars)
  {
    var pages: seq<string> := [];
    ghost var chunks: seq<seq<string>> := [];
    var i := 0;
    while i < |cars|
      invariant 0 <= i <= |cars|
      invariant Traverse(cars[..i], CarPages(env)) == Success(chunks) && pages == Concat(chunks)
    {
      var crawl, _ := IterateSearchPages(env, CarArgs(cars[i]), 10);
      assert CarPages(env)(cars[i]) == crawl;
      if crawl.Failure? {
        TraverseExtendFailure(cars, CarPages(env), i);
        return Failure(crawl.error);
      }
      TraverseExtend(cars, CarPages(env), i, chunks, crawl.value);
      ConcatSnoc(chunks, crawl.value);
      pages := pages + crawl.value;
      chunks := chunks + [crawl.value];
      i := i + 1;
    }
    assert cars[..i] == cars;
    return Success(pages);
  }

  function SearchPageOf(env: Env): string -> Result<seq<map<string, Json>>, Exc> {
    html => SearchPage(env, html)
  }

  /** The `listings` list the batch builds from `pages`, or the first exception. */
  function BatchListings(env: Env, pages: seq<string>): (r: Result<seq<map<string, Json>>, Exc>)
  {
    var chunks :- Traverse(pages, SearchPageOf(env));
    Success(Concat(chunks))
  }

  method CollectListings(env: Env, pages: seq<string>) returns (r: Result<seq<map<string, Json>>, Exc>)
    ensures r == BatchListings(env, pages)
  {
    var listings: seq<map<string, Json>> := [];
    ghost var chunks: seq<seq<map<string, Json>>> := [];
    var i := 0;
    while i < |pages|
      invariant 0 <= i <= |pages|
      invariant Traverse(pages[..i], SearchPageOf(env)) == Success(chunks) && listings == Concat(chunks)
    {
      var records := ParseSearchPage(env, pages[i]);
      assert SearchPageOf(env)(pages[i]) == records;
      if records.Failure? {
        TraverseExtendFailure(pages, SearchPageOf(env), i);
        return Failure(records.error);
      }
      TraverseExtend(pages, SearchPageOf(env), i, chunks, records.value);
      ConcatSnoc(chunks, records.value);
      listings := listings + records.value;
      chunks := chunks + [records.value];
      i := i + 1;
    }
    assert pages[..i] == pages;
    return Success(listings);
  }

  /** The number of GraphQL listings on a page (0 where extraction raises). */
  function GraphqlCount(env: Env): string -> nat {
    html => if GraphqlListings(html, env.soup, env.loads).Success?
            then |GraphqlListings(html, env.soup, env.loads).value| else 0
  }

  /** The batch has exactly one record per GraphQL listing of every collected page. */
  lemma BatchListingCount(env: Env, pages: seq<string>)
    requires BatchListings(env, pages).Success?
    ensures |BatchListings(env, pages).value| == Sum(pages, GraphqlCount(env))
  {
    var chunks := Traverse(pages, SearchPageOf(env)).value;
    forall i | 0 <= i < |pages| ensures |chunks[i]| == GraphqlCount(env)(pages[i]) {
      assert SearchPageOf(env)(pages[i]) == Success(chunks[i]);
    }
    ConcatLength(pages, chunks, GraphqlCount(env));
  }

  /** The whole batch: collect the pages of every car, then parse them all. */
  function Batch(env: Env): Result<seq<map<string, Json>>, Exc> {
    var pages :- BatchPages(env, Cars);
    BatchListings(env, pages)
  }

  method RunBatch(env: Env) returns (r: Result<seq<map<string, Json>>, Exc>)
    ensures r == Batch(env)
  {
    var pages :- CollectPages(env, Cars);
    r := CollectListings(env, pages);
  }
}
