/** What the scraper reads out of a page through BeautifulSoup. Parsing HTML is library code,
    so each lookup is a parameter of the model: a function of the page text. */
module Html {
  import opened Wrappers

  datatype Soup = Soup(
    /** `[s.string for s in soup.find_all("script")]`, in document order (`None` for a script
        whose `.string` is `None`). */
    scripts: string -> seq<Option<string>>,
    /** `.string` of `<script type="application/ld+json" id="listing-json-ld">`; `None` when
        there is no such script or its `.string` is `None`. */
    jsonLdScript: string -> Option<string>,
    /** `content` of `<meta property="og:url">`; `None` when the tag or the attribute is missing. */
    ogUrl: string -> Option<string>)
}
