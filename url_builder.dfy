/** The search-URL builder (src/url_builder.py): a fixed table of supported brand/model slugs,
    the query string of a search, and the URL of each results page. `urlencode` and the UTF-8
    encoding it applies are written out, together with the decoding that inverts them. */
module UrlBuilder {
  import opened Wrappers
  import opened Text
  import opened Json
  import opened Collect

  // ---------------------------------------------------------------------------
  // BRAND_MODEL_SLUGS

  /** The supported (brand, model) pairs, keyed by their lower-case names. */
  const BrandModelSlugs: map<(string, string), (string, string)> :=
    map[
      ("volkswagen", "taigo") := ("volkswagen", "taigo"),
      ("renault", "kadjar") := ("renault", "kadjar"),
      ("skoda", "kamiq") := ("skoda", "kamiq"),
      ("seat", "ateca") := ("seat", "ateca"),
      ("ford", "puma") := ("ford", "puma"),
      ("ford", "kuga") := ("ford", "kuga"),
      ("suzuki", "sx4-s-cross") := ("suzuki", "sx4-s-cross"),
      ("honda", "hr-v") := ("honda", "hr-v")]

  /** The slugs of a brand and model, looked up case-insensitively; `ValueError` when unsupported.
      Every slug is the lower-cased name it is looked up by. */
  function Slugs(brand: string, model: string): (r: Result<(string, string), Exc>)
    ensures r.Success? <==> (Lower(brand), Lower(model)) in BrandModelSlugs
    ensures r.Success? ==> r.value == (Lower(brand), Lower(model))
    ensures r.Failure? ==> r.error == ValueError
  {
    var key := (Lower(brand), Lower(model));
    if key !in BrandModelSlugs then Failure(ValueError) else Success(BrandModelSlugs[key])
  }

  // ---------------------------------------------------------------------------
  // build_query_params

  /** A query-parameter value: the source passes integers and strings. */
  datatype Param = IntParam(n: int) | StrParam(s: string)

  /** `str(v)` as `urlencode` applies it to a non-string value. */
  function ParamText(p: Param): string {
    match p
    case IntParam(n) => IntToString(n)
    case StrParam(s) => s
  }

  /** The parameter dict of a search, in insertion order. */
  function QueryParams(priceFrom: int, priceTo: int, yearTo: int, mileageTo: int, fuelType: string,
                       gearbox: string, accidentFree: bool, page: Option<int>): (r: seq<(string, Param)>)
    ensures |r| == 6 + (if accidentFree then 1 else 0) + (if page.Some? then 1 else 0)
    ensures r[..6] == [
      ("search[filter_float_price:from]", IntParam(priceFrom)),
      ("search[filter_float_price:to]", IntParam(priceTo)),
      ("search[filter_float_year:to]", IntParam(yearTo)),
      ("search[filter_float_mileage:to]", IntParam(mileageTo)),
      ("search[filter_enum_fuel_type]", StrParam(fuelType)),
      ("search[filter_enum_gearbox]", StrParam(gearbox))]
    ensures accidentFree <==> ("search[filter_enum_damaged]", IntParam(0)) in r
    ensures page.Some? ==> r[|r| - 1] == ("page", IntParam(page.value))
    ensures page.None? ==> forall i :: 0 <= i < |r| ==> r[i].0 != "page"
    ensures forall i, j :: 0 <= i < j < |r| ==> r[i].0 != r[j].0
  {
    var base := [
      ("search[filter_float_price:from]", IntParam(priceFrom)),
      ("search[filter_float_price:to]", IntParam(priceTo)),
      ("search[filter_float_year:to]", IntParam(yearTo)),
      ("search[filter_float_mileage:to]", IntParam(mileageTo)),
      ("search[filter_enum_fuel_type]", StrParam(fuelType)),
      ("search[filter_enum_gearbox]", StrParam(gearbox))];
    var withDamage := if accidentFree then base + [("search[filter_enum_damaged]", IntParam(0))] else base;
    if page.Some? then withDamage + [("page", IntParam(page.value))] else withDamage
  }

  /** `build_query_params(...)`: `urlencode(params, doseq=True)`. */
  function BuildQueryParams(priceFrom: int, priceTo: int, yearTo: int, mileageTo: int, fuelType: string,
                            gearbox: string, accidentFree: bool, page: Option<int>): string
  {
    UrlEncode(QueryParams(priceFrom, priceTo, yearTo, mileageTo, fuelType, gearbox, accidentFree, page))
  }

  // ---------------------------------------------------------------------------
  // urlencode: UTF-8, quote_plus, and the `k=v&k=v` layout

  type Byte = b: int | 0 <= b < 256

  /** The UTF-8 encoding of one character. */
  function Utf8Char(c: char): (r: seq<Byte>)
    ensures 1 <= |r| <= 4
    ensures (c as int < 0x80) <==> (|r| == 1)
    ensures |r| == 1 ==> r[0] == c as int
  {
    var n := c as int;
    if n < 0x80 then [n]
    else if n < 0x800 then [0xC0 + n / 64, 0x80 + n % 64]
    else if n < 0x10000 then [0xE0 + n / 4096, 0x80 + (n / 64) % 64, 0x80 + n % 64]
    else [0xF0 + n / 262144, 0x80 + (n / 4096) % 64, 0x80 + (n / 64) % 64, 0x80 + n % 64]
  }

  /** `s.encode("utf-8")` */
  function Utf8(s: string): seq<Byte>
    decreases |s|
  {
    if |s| == 0 then [] else Utf8Char(s[0]) + Utf8(s[1..])
  }

  /** The bytes `quote_plus` never escapes: ASCII letters, digits and `_.-~`. */
  predicate Unreserved(b: Byte) {
    ('A' as int <= b <= 'Z' as int) || ('a' as int <= b <= 'z' as int) || ('0' as int <= b <= '9' as int) ||
    b == '_' as int || b == '.' as int || b == '-' as int || b == '~' as int
  }

  function HexDigit(d: nat): (c: char)
    requires d < 16
  {
    "0123456789ABCDEF"[d]
  }

  predicate IsHexDigit(c: char) {
    IsDigit(c) || 'A' <= c <= 'F' || 'a' <= c <= 'f'
  }

  function HexValue(c: char): (d: nat)
    requires IsHexDigit(c)
    ensures d < 16
  {
    if IsDigit(c) then c as int - '0' as int
    else if 'A' <= c <= 'F' then c as int - 'A' as int + 10
    else c as int - 'a' as int + 10
  }

  lemma HexDigitValue(d: nat)
    requires d < 16
    ensures IsHexDigit(HexDigit(d)) && HexValue(HexDigit(d)) == d
  {
  }

  /** How `quote_plus` writes one byte: itself, `+` for a space, or `%XX` in upper-case hex. */
  function QuoteByte(b: Byte): (r: string)
    ensures |r| == 1 || |r| == 3
  {
    if Unreserved(b) then [b as char]
    else if b == 0x20 then "+"
    else ['%', HexDigit(b / 16), HexDigit(b % 16)]
  }

  function QuoteBytes(bs: seq<Byte>): string
    decreases |bs|
  {
    if |bs| == 0 then "" else QuoteByte(bs[0]) + QuoteBytes(bs[1..])
  }

  /** `quote_plus(s)` with no extra safe characters. */
  function QuotePlus(s: string): string
    decreases |s|
  {
    if |s| == 0 then "" else QuoteBytes(Utf8Char(s[0])) + QuotePlus(s[1..])
  }

  /** `urllib.parse.unquote_to_bytes` over `+`-for-space text: the inverse of `quote_plus` at the
      byte level; `None` for a character `quote_plus` cannot have written. */
  function UnquoteBytes(t: string): Option<seq<Byte>>
    decreases |t|
  {
    if |t| == 0 then Some([])
    else if t[0] == '+' then
      var rest :- UnquoteBytes(t[1..]);
      Some([0x20] + rest)
    else if t[0] == '%' then
      if |t| >= 3 && IsHexDigit(t[1]) && IsHexDigit(t[2]) then
        var rest :- UnquoteBytes(t[3..]);
        Some([HexValue(t[1]) * 16 + HexValue(t[2])] + rest)
      else None
    else if t[0] as int < 0x80 then
      var rest :- UnquoteBytes(t[1..]);
      Some([t[0] as int] + rest)
    else None
  }

  /** One `k=v` piece of `urlencode(params, doseq=True)`. */
  function Piece(p: (string, Param)): string {
    QuotePlus(p.0) + "=" + QuotePlus(ParamText(p.1))
  }

  /** `urlencode(params, doseq=True)` for string keys and integer or string values. */
  function UrlEncode(params: seq<(string, Param)>): string {
    Join("&", seq(|params|, i requires 0 <= i < |params| => Piece(params[i])))
  }

  /** Reads one `k=v` piece back to the bytes of its key and value. */
  function DecodePiece(piece: string): (r: Result<(seq<Byte>, seq<Byte>), Exc>)
  {
    var kv := Split(piece, '=');
    if |kv| != 2 then Failure(ValueError)
    else
      match (UnquoteBytes(kv[0]), UnquoteBytes(kv[1]))
      case (Some(k), Some(v)) => Success((k, v))
      case _ => Failure(ValueError)
  }

  /** `parse_qsl` at the byte level: the (key, value) byte strings of a query, in order. */
  function DecodeQuery(q: string): Result<seq<(seq<Byte>, seq<Byte>)>, Exc> {
    Traverse(Split(q, '&'), DecodePiece)
  }

  /** The byte strings a query built from `params` carries. */
  function Encoded(params: seq<(string, Param)>): seq<(seq<Byte>, seq<Byte>)> {
    seq(|params|, i requires 0 <= i < |params| => (Utf8(params[i].0), Utf8(ParamText(params[i].1))))
  }

  // ---------------------------------------------------------------------------
  // The round trip of urlencode

  /** The only characters `quote_plus` writes. */
  predicate QuotedChar(c: char) {
    IsHexDigit(c) || ('A' <= c <= 'Z') || ('a' <= c <= 'z') || c == '_' || c == '.' || c == '-' ||
    c == '~' || c == '+' || c == '%'
  }

  predicate AllQuoted(t: string) {
    forall i :: 0 <= i < |t| ==> QuotedChar(t[i])
  }

  lemma {:induction false} QuoteBytesChars(bs: seq<Byte>)
    ensures AllQuoted(QuoteBytes(bs))
    decreases |bs|
  {
    if |bs| > 0 {
      QuoteBytesChars(bs[1..]);
      var q := QuoteByte(bs[0]);
      assert AllQuoted(q) by {
        if !Unreserved(bs[0]) && bs[0] != 0x20 {
          HexDigitValue(bs[0] / 16);
          HexDigitValue(bs[0] % 16);
        }
      }
      assert forall i :: 0 <= i < |q| ==> (q + QuoteBytes(bs[1..]))[i] == q[i];
    }
  }

  /** Quoted text holds neither `&` nor `=`, so it cannot break the `k=v&k=v` layout. */
  lemma {:induction false} QuotePlusChars(s: string)
    ensures AllQuoted(QuotePlus(s))
    ensures '&' !in QuotePlus(s) && '=' !in QuotePlus(s)
    decreases |s|
  {
    if |s| > 0 {
      QuoteBytesChars(Utf8Char(s[0]));
      QuotePlusChars(s[1..]);
      var a, b := QuoteBytes(Utf8Char(s[0])), QuotePlus(s[1..]);
      assert forall i :: |a| <= i < |a + b| ==> (a + b)[i] == b[i - |a|];
    }
  }

  /** Decoding a quoted byte in front of decodable text. */
  lemma UnquoteQuoteByte(b: Byte, t: string)
    requires UnquoteBytes(t).Some?
    ensures UnquoteBytes(QuoteByte(b) + t) == Some([b] + UnquoteBytes(t).value)
  {
    if Unreserved(b) || b == 0x20 {
      var u := QuoteByte(b) + t;
      assert u[1..] == t;
    } else {
      UnquoteEscapedByte(b, t);
    }
  }

  lemma UnquoteEscapedByte(b: Byte, t: string)
    requires !Unreserved(b) && b != 0x20 && UnquoteBytes(t).Some?
    ensures UnquoteBytes(QuoteByte(b) + t) == Some([b] + UnquoteBytes(t).value)
  {
    HexDigitValue(b / 16);
    HexDigitValue(b % 16);
    UnquoteEscape(HexDigit(b / 16), HexDigit(b % 16), t);
  }

  /** A `%XX` escape decodes to the byte its two hex digits spell. */
  lemma UnquoteEscape(hi: char, lo: char, t: string)
    requires IsHexDigit(hi) && IsHexDigit(lo) && UnquoteBytes(t).Some?
    ensures UnquoteBytes(['%', hi, lo] + t) == Some([HexValue(hi) * 16 + HexValue(lo)] + UnquoteBytes(t).value)
  {
    var u := ['%', hi, lo] + t;
    assert u[0] == '%' && u[1] == hi && u[2] == lo && u[3..] == t;
  }

  lemma {:induction false} UnquoteQuoteBytes(bs: seq<Byte>, t: string)
    requires UnquoteBytes(t).Some?
    ensures UnquoteBytes(QuoteBytes(bs) + t) == Some(bs + UnquoteBytes(t).value)
    decreases |bs|
  {
    var rest := UnquoteBytes(t).value;
    if |bs| == 0 {
      EmptyAppend(QuoteBytes(bs), t);
      EmptyAppend(bs, rest);
    } else {
      var tail := QuoteBytes(bs[1..]) + t;
      UnquoteQuoteBytes(bs[1..], t);
      UnquoteQuoteByte(bs[0], tail);
      AppendAssoc(QuoteByte(bs[0]), QuoteBytes(bs[1..]), t);
      ConsAppend(bs, rest);
    }
  }

  /** `unquote_to_bytes(quote_plus(s)) == s.encode("utf-8")` */
  lemma {:induction false} UnquoteQuotePlus(s: string)
    ensures UnquoteBytes(QuotePlus(s)) == Some(Utf8(s))
    decreases |s|
  {
    if |s| > 0 {
      UnquoteQuotePlus(s[1..]);
      UnquoteQuoteBytes(Utf8Char(s[0]), QuotePlus(s[1..]));
      assert QuotePlus(s) == QuoteBytes(Utf8Char(s[0])) + QuotePlus(s[1..]);
      assert Utf8(s) == Utf8Char(s[0]) + Utf8(s[1..]);
    }
  }

  lemma DecodePieceOfPiece(p: (string, Param))
    ensures DecodePiece(Piece(p)) == Success((Utf8(p.0), Utf8(ParamText(p.1))))
  {
    var k, v := QuotePlus(p.0), QuotePlus(ParamText(p.1));
    QuotePlusChars(p.0);
    QuotePlusChars(ParamText(p.1));
    SplitAtSep(k, '=', v);
    SplitNoSep(v, '=');
    assert Piece(p) == k + ['='] + v;
    UnquoteQuotePlus(p.0);
    UnquoteQuotePlus(ParamText(p.1));
  }

  /** Decoding a query built by `urlencode` gives back its keys and values, in order. */
  lemma QueryRoundTrip(params: seq<(string, Param)>)
    requires |params| > 0
    ensures DecodeQuery(UrlEncode(params)) == Success(Encoded(params))
  {
    var pieces := seq(|params|, i requires 0 <= i < |params| => Piece(params[i]));
    forall k | 0 <= k < |pieces| ensures '&' !in pieces[k] {
      QuotePlusChars(params[k].0);
      QuotePlusChars(ParamText(params[k].1));
    }
    SplitJoin(pieces, '&');
    forall k | 0 <= k < |pieces| ensures DecodePiece(pieces[k]) == Success(Encoded(params)[k]) {
      DecodePieceOfPiece(params[k]);
    }
    TraverseAllSucceed(pieces, DecodePiece, Encoded(params));
  }

  /** `quote_plus` is applied character by character. */
  lemma {:induction false} QuotePlusAppend(a: string, b: string)
    ensures QuotePlus(a + b) == QuotePlus(a) + QuotePlus(b)
    decreases |a|
  {
    if |a| == 0 {
      assert a + b == b;
    } else {
      assert (a + b)[1..] == a[1..] + b;
      QuotePlusAppend(a[1..], b);
    }
  }

  /** Letters, digits and `_.-~` pass through `quote_plus` unchanged. */
  lemma {:induction false} QuotePlusUnreserved(s: string)
    requires forall i :: 0 <= i < |s| ==> s[i] as int < 0x80 && Unreserved(s[i] as int)
    ensures QuotePlus(s) == s
    decreases |s|
  {
    if |s| > 0 {
      QuotePlusUnreserved(s[1..]);
      QuoteAsciiChar(s[0]);
      assert s == [s[0]] + s[1..];
    }
  }

  /** An unreserved ASCII character is written as itself. */
  lemma QuoteAsciiChar(c: char)
    requires c as int < 0x80 && Unreserved(c as int)
    ensures QuotePlus([c]) == [c]
  {
    assert [c][1..] == [];
    assert Utf8Char(c) == [c as int];
    assert QuoteBytes([c as int]) == QuoteByte(c as int) + QuoteBytes([]);
  }

  /** An escaped ASCII character is written as `%` and its two upper-case hex digits. */
  lemma QuoteEscapedChar(c: char)
    requires c as int < 0x80 && !Unreserved(c as int) && c != ' '
    ensures QuotePlus([c]) == ['%', HexDigit(c as int / 16), HexDigit(c as int % 16)]
  {
    assert [c][1..] == [];
    assert Utf8Char(c) == [c as int];
    assert QuoteBytes([c as int]) == QuoteByte(c as int) + QuoteBytes([]);
  }

  /** How the brackets and the colon of the parameter names are written. */
  lemma SearchKeyQuoting()
    ensures QuotePlus("[") == "%5B" && QuotePlus("]") == "%5D" && QuotePlus(":") == "%3A"
  {
    QuoteEscapedChar('[');
    QuoteEscapedChar(']');
    QuoteEscapedChar(':');
  }

  // ---------------------------------------------------------------------------
  // build_search_url

  /** The keyword arguments of `build_search_url` other than `page`. */
  datatype SearchArgs = SearchArgs(
    brand: string, model: string, yearFrom: int, priceFrom: int, priceTo: int, yearTo: int,
    mileageTo: int, fuelType: string, gearbox: string, accidentFree: bool)

  /** A search given only the required arguments: petrol, manual, accident-free. */
  function WithDefaults(brand: string, model: string, yearFrom: int, priceFrom: int, priceTo: int,
                        yearTo: int, mileageTo: int): (a: SearchArgs)
    ensures a.fuelType == "petrol" && a.gearbox == "manual" && a.accidentFree
  {
    SearchArgs(brand, model, yearFrom, priceFrom, priceTo, yearTo, mileageTo, "petrol", "manual", true)
  }

  /** `https://www.otomoto.pl/osobowe/{brand_slug}/{model_slug}/od-{year_from}` */
  function BaseUrl(brandSlug: string, modelSlug: string, yearFrom: int): string {
    "https://www.otomoto.pl/osobowe/" + brandSlug + "/" + modelSlug + "/od-" + IntToString(yearFrom)
  }

  function SearchParams(args: SearchArgs, page: Option<int>): seq<(string, Param)> {
    QueryParams(args.priceFrom, args.priceTo, args.yearTo, args.mileageTo, args.fuelType,
                args.gearbox, args.accidentFree, page)
  }

  /** `build_search_url(**args, page=page)`: `ValueError` exactly for an unsupported brand/model. */
  function BuildSearchUrl(args: SearchArgs, page: Option<int>): (r: Result<string, Exc>)
    ensures r.Success? <==> (Lower(args.brand), Lower(args.model)) in BrandModelSlugs
    ensures r.Failure? ==> r.error == ValueError
  {
    var (brandSlug, modelSlug) :- Slugs(args.brand, args.model);
    var queryString := BuildQueryParams(args.priceFrom, args.priceTo, args.yearTo, args.mileageTo,
                                        args.fuelType, args.gearbox, args.accidentFree, page);
    Success(BaseUrl(brandSlug, modelSlug, args.yearFrom) + "?" + queryString)
  }

  /** A search URL is its lower-cased path, a `?`, and a query that decodes to the search's
      parameters. */
  lemma SearchUrlParts(args: SearchArgs, page: Option<int>)
    requires BuildSearchUrl(args, page).Success?
    ensures BuildSearchUrl(args, page).value ==
      BaseUrl(Lower(args.brand), Lower(args.model), args.yearFrom) + "?" + UrlEncode(SearchParams(args, page))
    ensures DecodeQuery(UrlEncode(SearchParams(args, page))) == Success(Encoded(SearchParams(args, page)))
  {
    QueryRoundTrip(SearchParams(args, page));
  }

  /** Brand and model are matched without regard to case. */
  lemma SearchUrlIgnoresCase(args: SearchArgs, brand: string, model: string, page: Option<int>)
    requires Lower(brand) == Lower(args.brand) && Lower(model) == Lower(args.model)
    ensures BuildSearchUrl(args.(brand := brand, model := model), page) == BuildSearchUrl(args, page)
  {
  }

  // ---------------------------------------------------------------------------
  // generate_paginated_urls

  /** `range(1, max_pages + 1)` */
  function PageNumbers(maxPages: int): (r: seq<int>)
    ensures |r| == if maxPages < 0 then 0 else maxPages
    ensures forall i :: 0 <= i < |r| ==> r[i] == i + 1
  {
    seq(if maxPages < 0 then 0 else maxPages, i => i + 1)
  }

  /** `build_search_url(page=page, **base_args)` as a function of the page. */
  function PageUrl(args: SearchArgs): int -> Result<string, Exc> {
    p => BuildSearchUrl(args, Some(p))
  }

  /** What `generate_paginated_urls(base_args, max_pages)` returns or raises. */
  function PaginatedUrls(args: SearchArgs, maxPages: int): Result<seq<string>, Exc> {
    Traverse(PageNumbers(maxPages), PageUrl(args))
  }

  method GeneratePaginatedUrls(args: SearchArgs, maxPages: int) returns (r: Result<seq<string>, Exc>)
    ensures r == PaginatedUrls(args, maxPages)
  {
    r := TraverseEach(PageNumbers(maxPages), PageUrl(args));
  }

  /** One URL per page from 1 to `max_pages`, the search URL of that page; an unsupported
      brand/model fails as soon as there is a page to build. */
  lemma PaginatedUrlsPages(args: SearchArgs, maxPages: int)
    ensures PaginatedUrls(args, maxPages).Failure? <==>
      maxPages >= 1 && (Lower(args.brand), Lower(args.model)) !in BrandModelSlugs
    ensures PaginatedUrls(args, maxPages).Success? ==>
      var urls := PaginatedUrls(args, maxPages).value;
      |urls| == (if maxPages < 0 then 0 else maxPages) &&
      forall i :: 0 <= i < |urls| ==> BuildSearchUrl(args, Some(i + 1)) == Success(urls[i])
  {
    var f := PageUrl(args);
    var ok := (Lower(args.brand), Lower(args.model)) in BrandModelSlugs;
    forall p | 1 <= p <= |PageNumbers(maxPages)| ensures f(p).Success? == ok {
      assert f(p) == BuildSearchUrl(args, Some(p));
    }
    TraverseRange(PageNumbers(maxPages), f, ok);
  }

  /** The page a URL asks for is its last query parameter. */
  lemma PageIsLastParam(args: SearchArgs, page: int)
    ensures var params := SearchParams(args, Some(page));
      |params| > 0 && params[|params| - 1] == ("page", IntParam(page))
  {
  }
}
