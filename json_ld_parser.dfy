/** The structured-data extractor (src/parser/json_ld_parser.py): reads the page's
    `application/ld+json` listing block and turns each offer of its item list into a small
    record, skipping any offer that raises on the way. */
module JsonLdParser {
  import opened Wrappers
  import opened Text
  import opened Json
  import opened Collect
  import opened Html

  /** One parsed offer. `mileage` and `price` are `None` when the source value is falsy. */
  datatype Offer = Offer(
    title: Json, brand: Json, fuelType: Json,
    mileage: Option<int>, price: Option<int>, currency: Json)

  /** The dict the source appends for an offer, by key. */
  function OfferFields(o: Offer): map<string, Json> {
    map[
      "title" := o.title, "brand" := o.brand, "fuel_type" := o.fuelType,
      "mileage" := OptionalNumber(o.mileage), "price" := OptionalNumber(o.price),
      "currency" := o.currency, "source" := JStr("json_ld")]
  }

  function OptionalNumber(n: Option<int>): Json {
    match n
    case Some(v) => JNum(v)
    case None => JNull
  }

  // ---------------------------------------------------------------------------
  // extract_json_ld

  /** The decoded document, or `None` when the script is missing, empty or not valid JSON. */
  function ExtractJsonLd(script: Option<string>, loads: Loads): (r: Option<Json>)
    ensures script.None? || script == Some("") ==> r.None?
    ensures script.Some? && script.value != "" ==> r == loads(script.value)
  {
    match script
    case None => None
    case Some(text) => if text == "" then None else loads(text)
  }

  // ---------------------------------------------------------------------------
  // parse_offers

  /** `int(x) if x else None`, and the same with `float`. */
  function NumberIfTruthy(x: Json): (r: Result<Option<int>, Exc>)
    ensures !Truthy(x) ==> r == Success(None)
    ensures Truthy(x) && IntOf(x).Success? ==> r == Success(Some(IntOf(x).value))
    ensures Truthy(x) && IntOf(x).Failure? ==> r == Failure(IntOf(x).error)
  {
    if Truthy(x) then
      var n :- IntOf(x);
      Success(Some(n))
    else Success(None)
  }

  /** The body of the `try` block for one offer, in the order the source evaluates it. */
  function ParseOffer(offer: Json): (r: Result<Offer, Exc>)
    ensures !offer.JObj? ==> r == Failure(AttributeError)
  {
    var priceSpec :- DictGet(offer, "priceSpecification", JObj([]));
    var item :- DictGet(offer, "itemOffered", JObj([]));
    var mileageObj :- DictGet(item, "mileageFromOdometer", JObj([]));
    var title :- DictGet(item, "name", JNull);
    var brand :- DictGet(item, "brand", JNull);
    var fuelType :- DictGet(item, "fuelType", JNull);
    var mileageValue :- DictGet(mileageObj, "value", JNull);
    var mileage :- NumberIfTruthy(mileageValue);
    var priceValue :- DictGet(priceSpec, "price", JNull);
    var price :- NumberIfTruthy(priceValue);
    var currency :- DictGet(priceSpec, "priceCurrency", JNull);
    Success(Offer(title, brand, fuelType, mileage, price, currency))
  }

  /** For a dict offer whose `priceSpecification`, `itemOffered` and `mileageFromOdometer` are
      dicts or absent, the offer parses exactly when its mileage and price values convert, and
      then carries those values and the item's name, brand and fuel type; otherwise the first
      conversion that raises is the offer's exception. */
  lemma ParseOfferFields(offer: Json, priceSpec: Json, item: Json, mileageObj: Json)
    requires offer.JObj? && priceSpec.JObj? && item.JObj? && mileageObj.JObj?
    requires Get(offer.fields, "priceSpecification").GetOr(JObj([])) == priceSpec
    requires Get(offer.fields, "itemOffered").GetOr(JObj([])) == item
    requires Get(item.fields, "mileageFromOdometer").GetOr(JObj([])) == mileageObj
    ensures var mileage := NumberIfTruthy(Get(mileageObj.fields, "value").GetOr(JNull));
      var price := NumberIfTruthy(Get(priceSpec.fields, "price").GetOr(JNull));
      && (ParseOffer(offer).Success? <==> mileage.Success? && price.Success?)
      && (mileage.Failure? ==> ParseOffer(offer) == Failure(mileage.error))
      && (mileage.Success? && price.Failure? ==> ParseOffer(offer) == Failure(price.error))
      && (ParseOffer(offer).Success? ==> ParseOffer(offer).value == Offer(
            Get(item.fields, "name").GetOr(JNull), Get(item.fields, "brand").GetOr(JNull),
            Get(item.fields, "fuelType").GetOr(JNull), mileage.value, price.value,
            Get(priceSpec.fields, "priceCurrency").GetOr(JNull)))
  {
  }

  /** An `itemOffered` that is present but is not a dict has no `get`: the offer raises
      AttributeError and is skipped. */
  lemma ParseOfferNonDictItem(offer: Json)
    requires offer.JObj?
    requires Get(offer.fields, "itemOffered").Some? && !Get(offer.fields, "itemOffered").value.JObj?
    ensures ParseOffer(offer) == Failure(AttributeError)
  {
  }

  /** A mileage given as text that is not a number makes the offer raise, so it is skipped. */
  lemma TextMileageSkipped(name: Json)
    ensures var offer := JObj([("itemOffered", JObj([("name", name),
                                ("mileageFromOdometer", JObj([("value", JStr("abc"))]))]))]);
      ParseOffer(offer) == Failure(ValueError)
  {
  }

  /** `json_ld.get("mainEntity", {}).get("itemListElement", [])`, as the loop iterates it. */
  function Items(jsonLd: Json): Result<seq<Json>, Exc> {
    var main :- DictGet(jsonLd, "mainEntity", JObj([]));
    var items :- DictGet(main, "itemListElement", JArr([]));
    Iterate(items)
  }

  /** What `parse_offers` returns: the offers that parse, in order. Only reaching the item list
      can raise; the loop itself never does. */
  function Offers(jsonLd: Json): (r: Result<seq<Offer>, Exc>)
    ensures r.Success? <==> Items(jsonLd).Success?
    ensures r.Success? ==> r.value == Successes(Items(jsonLd).value, ParseOffer)
  {
    var items :- Items(jsonLd);
    Success(Successes(items, ParseOffer))
  }

  method ParseOffers(jsonLd: Json) returns (r: Result<seq<Offer>, Exc>)
    ensures r == Offers(jsonLd)
  {
    var items :- Items(jsonLd);
    var results: seq<Offer> := [];
    var i := 0;
    while i < |items|
      invariant 0 <= i <= |items|
      invariant results == Successes(items[..i], ParseOffer)
    {
      var offer := ParseOffer(items[i]);
      SuccessesExtend(items, ParseOffer, i);
      if offer.Success? {
        results := results + [offer.value];
      }
      i := i + 1;
    }
    assert items[..i] == items;
    return Success(results);
  }

  // ---------------------------------------------------------------------------
  // parse_json_ld

  /** What `parse_json_ld(html)` returns or raises: no offers for a missing, undecodable or
      falsy document. */
  function JsonLd(html: string, soup: Soup, loads: Loads): (r: Result<seq<Offer>, Exc>)
    ensures match ExtractJsonLd(soup.jsonLdScript(html), loads)
      case None => r == Success([])
      case Some(doc) => r == if Truthy(doc) then Offers(doc) else Success([])
  {
    match ExtractJsonLd(soup.jsonLdScript(html), loads)
    case None => Success([])
    case Some(doc) => if Truthy(doc) then Offers(doc) else Success([])
  }

  method ParseJsonLd(html: string, soup: Soup, loads: Loads) returns (r: Result<seq<Offer>, Exc>)
    ensures r == JsonLd(html, soup, loads)
  {
    var jsonLd := ExtractJsonLd(soup.jsonLdScript(html), loads);
    if jsonLd.None? || !Truthy(jsonLd.value) {
      return Success([]);
    }
    r := ParseOffers(jsonLd.value);
  }

  // ---------------------------------------------------------------------------
  // Properties

  /** A number as the listing block writes it: a decimal string, or absent (`null`). */
  function NumberText(n: Option<int>): Json {
    match n
    case Some(v) => JStr(IntToString(v))
    case None => JNull
  }

  /** An item of the listing block carrying the fields of `o`. */
  function EncodeOffer(o: Offer): Json {
    JObj([
      ("priceSpecification", JObj([("price", NumberText(o.price)), ("priceCurrency", o.currency)])),
      ("itemOffered", JObj([
        ("name", o.title), ("brand", o.brand), ("fuelType", o.fuelType),
        ("mileageFromOdometer", JObj([("value", NumberText(o.mileage))]))]))])
  }

  lemma NumberTextRoundTrip(n: Option<int>)
    ensures NumberIfTruthy(NumberText(n)) == Success(n)
  {
    if n.Some? {
      ParseIntOfString(n.value);
    }
  }

  /** Every offer survives being written into the listing block and read back. */
  lemma OfferRoundTrip(o: Offer)
    ensures ParseOffer(EncodeOffer(o)) == Success(o)
  {
    var e := EncodeOffer(o);
    var priceSpec := JObj([("price", NumberText(o.price)), ("priceCurrency", o.currency)]);
    var mileageObj := JObj([("value", NumberText(o.mileage))]);
    var item := JObj([("name", o.title), ("brand", o.brand), ("fuelType", o.fuelType),
                      ("mileageFromOdometer", mileageObj)]);
    GetLast(e.fields, "priceSpecification", 0);
    GetLast(e.fields, "itemOffered", 1);
    GetLast(item.fields, "name", 0);
    GetLast(item.fields, "brand", 1);
    GetLast(item.fields, "fuelType", 2);
    GetLast(item.fields, "mileageFromOdometer", 3);
    GetLast(mileageObj.fields, "value", 0);
    GetLast(priceSpec.fields, "price", 0);
    GetLast(priceSpec.fields, "priceCurrency", 1);
    NumberTextRoundTrip(o.mileage);
    NumberTextRoundTrip(o.price);
  }

  /** The listing block holding `offers` in order. */
  function Document(offers: seq<Offer>): Json {
    JObj([("mainEntity", JObj([("itemListElement",
      JArr(seq(|offers|, i requires 0 <= i < |offers| => EncodeOffer(offers[i]))))]))])
  }

  /** Parsing a listing block gives back exactly the offers written into it, in order. */
  lemma DocumentRoundTrip(offers: seq<Offer>)
    ensures Offers(Document(offers)) == Success(offers)
  {
    var items := seq(|offers|, i requires 0 <= i < |offers| => EncodeOffer(offers[i]));
    var main := JObj([("itemListElement", JArr(items))]);
    assert DictGet(Document(offers), "mainEntity", JObj([])) == Success(main);
    assert DictGet(main, "itemListElement", JArr([])) == Success(JArr(items));
    forall i | 0 <= i < |items| ensures ParseOffer(items[i]) == Success(offers[i]) {
      OfferRoundTrip(offers[i]);
    }
    SuccessesAllSucceed(items, ParseOffer, offers);
  }

  /** A broken offer is dropped and changes nothing about the offers around it. */
  lemma BrokenOfferSkipped(before: seq<Json>, broken: Json, after: seq<Json>)
    requires ParseOffer(broken).Failure?
    ensures Successes(before + [broken] + after, ParseOffer) ==
            Successes(before, ParseOffer) + Successes(after, ParseOffer)
  {
    SuccessesAppend(before, [broken], ParseOffer);
    SuccessesAppend(before + [broken], after, ParseOffer);
    assert Successes([broken], ParseOffer) == [] by {
      assert [broken][..0] == [];
    }
  }

  /** A numeric zero is falsy, so an odometer reading of 0 is read as "no mileage", and a
      missing price specification as "no price". */
  lemma ZeroMileageIsNone(title: Json)
    ensures ParseOffer(JObj([("itemOffered", JObj([("name", title),
                                                    ("mileageFromOdometer", JObj([("value", JNum(0))]))]))]))
            == Success(Offer(title, JNull, JNull, None, None, JNull))
  {
    var mileageObj := JObj([("value", JNum(0))]);
    var item := JObj([("name", title), ("mileageFromOdometer", mileageObj)]);
    var offer := JObj([("itemOffered", item)]);
    GetNone(offer.fields, "priceSpecification");
    GetLast(offer.fields, "itemOffered", 0);
    GetLast(item.fields, "name", 0);
    GetNone(item.fields, "brand");
    GetNone(item.fields, "fuelType");
    GetLast(item.fields, "mileageFromOdometer", 1);
    GetLast(mileageObj.fields, "value", 0);
    GetNone(JObj([]).fields, "price");
    GetNone(JObj([]).fields, "priceCurrency");
  }

  /** A document without a `mainEntity`, or whose `mainEntity` has no `itemListElement`, lists
      no offers. */
  lemma MissingItemListIsEmpty(fields: seq<(string, Json)>)
    requires Get(fields, "mainEntity").None? ||
             (Get(fields, "mainEntity").value.JObj? && Get(Get(fields, "mainEntity").value.fields, "itemListElement").None?)
    ensures Offers(JObj(fields)) == Success([])
  {
    var main := Get(fields, "mainEntity").GetOr(JObj([]));
    assert DictGet(JObj(fields), "mainEntity", JObj([])) == Success(main);
    assert DictGet(main, "itemListElement", JArr([])) == Success(JArr([]));
  }

  /** The offers are the parses of the items that parse, in item order: a subsequence of the
      item list, never longer than it. */
  lemma OffersAreSubsequence(jsonLd: Json) returns (idx: seq<nat>)
    requires Items(jsonLd).Success?
    ensures |Offers(jsonLd).value| <= |Items(jsonLd).value|
    ensures SuccessIndex(Items(jsonLd).value, ParseOffer, idx)
  {
    idx := SuccessesSubsequence(Items(jsonLd).value, ParseOffer);
  }
}
