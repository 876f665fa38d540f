/** The embedded-state extractor (src/parser/graphql_parser.py): finds the script holding the
    page's client-side state, decodes it, finds the query-cache entry holding the search results,
    decodes that entry's `data` string a second time, and builds one listing record per edge. */
module GraphqlParser {
  import opened Wrappers
  import opened Text
  import opened Json
  import opened Collect
  import opened Html

  // ---------------------------------------------------------------------------
  // find_props_script

  const PropsNotFound := RuntimeError("Props script not found")

  predicate IsPropsScript(script: Option<string>) {
    script.Some? && script.value != "" && Contains(script.value, "\"props\"")
  }

  /** The text of the first script that is non-empty and contains `"props"` (quotes included). */
  function PropsScript(scripts: seq<Option<string>>): (r: Result<string, Exc>)
    ensures r.Success? <==> exists i :: 0 <= i < |scripts| && IsPropsScript(scripts[i])
    ensures r.Success? ==>
      exists i :: 0 <= i < |scripts| && scripts[i] == Some(r.value) && IsPropsScript(scripts[i]) &&
        forall j :: 0 <= j < i ==> !IsPropsScript(scripts[j])
    ensures r.Failure? ==> r.error == PropsNotFound
    decreases |scripts|
  {
    if |scripts| == 0 then Failure(PropsNotFound)
    else if IsPropsScript(scripts[0]) then Success(scripts[0].value)
    else
      var rest := scripts[1..];
      assert forall i :: 0 <= i < |rest| ==> rest[i] == scripts[i + 1];
      var r := PropsScript(rest);
      assert r.Success? ==> exists i :: 0 <= i < |scripts| && IsPropsScript(scripts[i])
                                         && scripts[i] == Some(r.value) &&
                                         forall j :: 0 <= j < i ==> !IsPropsScript(scripts[j]) by {
        if r.Success? {
          var i :| 0 <= i < |rest| && rest[i] == Some(r.value) && IsPropsScript(rest[i]) &&
                   forall j :: 0 <= j < i ==> !IsPropsScript(rest[j]);
          assert forall j :: 0 <= j < i + 1 ==> !IsPropsScript(scripts[j]) by {
            forall j | 0 <= j < i + 1 ensures !IsPropsScript(scripts[j]) {
              if j > 0 { assert scripts[j] == rest[j - 1]; }
            }
          }
        }
      }
      assert (exists i :: 0 <= i < |scripts| && IsPropsScript(scripts[i])) ==>
             exists i :: 0 <= i < |rest| && IsPropsScript(rest[i]) by {
        if exists i :: 0 <= i < |scripts| && IsPropsScript(scripts[i]) {
          var i :| 0 <= i < |scripts| && IsPropsScript(scripts[i]);
          assert i > 0 && rest[i - 1] == scripts[i];
        }
      }
      r
  }

  method FindPropsScript(scripts: seq<Option<string>>) returns (r: Result<string, Exc>)
    ensures r == PropsScript(scripts)
  {
    var i := 0;
    while i < |scripts|
      invariant 0 <= i <= |scripts|
      invariant PropsScript(scripts[i..]) == PropsScript(scripts)
    {
      if IsPropsScript(scripts[i]) {
        return Success(scripts[i].value);
      }
      assert scripts[i..][1..] == scripts[i + 1..];
      i := i + 1;
    }
    return Failure(PropsNotFound);
  }

  // ---------------------------------------------------------------------------
  // json.loads, and extract_urql_state

  /** `json.loads(text)`, naming the decoding step whose failure this is. */
  function Decode(loads: Loads, text: string, stage: Stage): (r: Result<Json, Exc>)
    ensures r.Success? <==> loads(text).Some?
    ensures r.Success? ==> r.value == loads(text).value
    ensures r.Failure? ==> r.error == DecodeError(stage)
  {
    match loads(text)
    case Some(doc) => Success(doc)
    case None => Failure(DecodeError(stage))
  }

  /** `next_data.get("props", {}).get("pageProps", {}).get("urqlState", {})` */
  function ExtractUrqlState(nextData: Json): (r: Result<Json, Exc>)
  {
    var props :- DictGet(nextData, "props", JObj([]));
    var pageProps :- DictGet(props, "pageProps", JObj([]));
    DictGet(pageProps, "urqlState", JObj([]))
  }

  /** A state laid out as the site lays it out yields its `urqlState`; a missing level yields `{}`. */
  lemma UrqlStateAlongPath(nextData: Json, props: Json, pageProps: Json)
    requires nextData.JObj? && props.JObj? && pageProps.JObj?
    requires Get(nextData.fields, "props") == Some(props)
    requires Get(props.fields, "pageProps") == Some(pageProps)
    ensures ExtractUrqlState(nextData) == Success(Get(pageProps.fields, "urqlState").GetOr(JObj([])))
  {
  }

  /** A missing level of the path reads as `{}` all the way down; a level that is present but is
      not a dict has no `get` and raises AttributeError. */
  lemma UrqlStateMissingLevel(nextData: Json)
    ensures !nextData.JObj? ==> ExtractUrqlState(nextData) == Failure(AttributeError)
    ensures nextData.JObj? && Get(nextData.fields, "props").None? ==>
      ExtractUrqlState(nextData) == Success(JObj([]))
    ensures nextData.JObj? && Get(nextData.fields, "props").Some? ==>
      var props := Get(nextData.fields, "props").value;
      && (!props.JObj? ==> ExtractUrqlState(nextData) == Failure(AttributeError))
      && (props.JObj? && Get(props.fields, "pageProps").None? ==>
            ExtractUrqlState(nextData) == Success(JObj([])))
      && (props.JObj? && Get(props.fields, "pageProps").Some? &&
          !Get(props.fields, "pageProps").value.JObj? ==>
            ExtractUrqlState(nextData) == Failure(AttributeError))
  {
  }

  // ---------------------------------------------------------------------------
  // find_advert_search_state

  const AdvertSearchNotFound := RuntimeError("advertSearch state not found")

  /** A query-cache entry whose `data` is a string containing `advertSearch`. */
  predicate IsAdvertSearchEntry(entry: Json) {
    entry.JObj? &&
    var data := Get(entry.fields, "data");
    data.Some? && data.value.JStr? && Contains(data.value.s, "advertSearch")
  }

  /** Scans `entries` in order; `entry.get("data")` raises on an entry that is not a dict. */
  function AdvertSearchEntry(entries: seq<Json>): (r: Result<Json, Exc>)
    ensures r.Failure? ==> r.error == AttributeError || r.error == AdvertSearchNotFound
    decreases |entries|
  {
    if |entries| == 0 then Failure(AdvertSearchNotFound)
    else if !entries[0].JObj? then Failure(AttributeError)
    else if IsAdvertSearchEntry(entries[0]) then Success(entries[0])
    else AdvertSearchEntry(entries[1..])
  }

  /** The scan returns the first results entry, provided every entry before it is a dict. */
  lemma {:induction false} AdvertSearchEntryFirst(entries: seq<Json>, i: nat)
    requires i < |entries| && IsAdvertSearchEntry(entries[i])
    requires forall j :: 0 <= j < i ==> entries[j].JObj? && !IsAdvertSearchEntry(entries[j])
    ensures AdvertSearchEntry(entries) == Success(entries[i])
    decreases i
  {
    if i > 0 {
      assert forall j :: 0 <= j < i - 1 ==> entries[1..][j] == entries[j + 1];
      AdvertSearchEntryFirst(entries[1..], i - 1);
    }
  }

  /** A found entry is a results entry preceded only by dicts that are not. */
  lemma {:induction false} AdvertSearchEntryFound(entries: seq<Json>) returns (i: nat)
    requires AdvertSearchEntry(entries).Success?
    ensures i < |entries| && entries[i] == AdvertSearchEntry(entries).value && IsAdvertSearchEntry(entries[i])
    ensures forall j :: 0 <= j < i ==> entries[j].JObj? && !IsAdvertSearchEntry(entries[j])
    decreases |entries|
  {
    if IsAdvertSearchEntry(entries[0]) {
      i := 0;
    } else {
      var k := AdvertSearchEntryFound(entries[1..]);
      i := k + 1;
      forall j | 0 <= j < i ensures entries[j].JObj? && !IsAdvertSearchEntry(entries[j]) {
        if j > 0 { assert entries[j] == entries[1..][j - 1]; }
      }
    }
  }

  /** "not found" is raised exactly when every entry is a dict without the search results. */
  lemma {:induction false} AdvertSearchEntryNotFound(entries: seq<Json>)
    ensures AdvertSearchEntry(entries) == Failure(AdvertSearchNotFound) <==>
      forall i :: 0 <= i < |entries| ==> entries[i].JObj? && !IsAdvertSearchEntry(entries[i])
    decreases |entries|
  {
    if |entries| > 0 && entries[0].JObj? && !IsAdvertSearchEntry(entries[0]) {
      AdvertSearchEntryNotFound(entries[1..]);
      assert forall i :: 0 < i < |entries| ==> entries[i] == entries[1..][i - 1];
    }
  }

  /** `find_advert_search_state`: the entry of `urql_state.values()` that holds the search results. */
  function AdvertSearchState(urqlState: Json): (r: Result<Json, Exc>)
  {
    var entries :- Values(urqlState);
    AdvertSearchEntry(entries)
  }

  method FindAdvertSearchState(urqlState: Json) returns (r: Result<Json, Exc>)
    ensures r == AdvertSearchState(urqlState)
  {
    var entries :- Values(urqlState);
    var i := 0;
    while i < |entries|
      invariant 0 <= i <= |entries|
      invariant AdvertSearchEntry(entries[i..]) == AdvertSearchEntry(entries)
    {
      var entry := entries[i];
      if !entry.JObj? {
        return Failure(AttributeError);
      }
      if IsAdvertSearchEntry(entry) {
        return Success(entry);
      }
      assert entries[i..][1..] == entries[i + 1..];
      i := i + 1;
    }
    return Failure(AdvertSearchNotFound);
  }

  // ---------------------------------------------------------------------------
  // decode_graphql_data

  /** `json.loads(entry["data"])`, the second decoding. */
  function DecodeGraphqlData(entry: Json, loads: Loads): (r: Result<Json, Exc>)
    ensures IsAdvertSearchEntry(entry) ==>
      r == Decode(loads, Get(entry.fields, "data").value.s, Inner)
  {
    var raw :- Index(entry, "data");
    match raw
    case JStr(s) => Decode(loads, s, Inner)
    case _ => Failure(TypeError)
  }

  // ---------------------------------------------------------------------------
  // safe_price

  /** `advert["price"]["amount"]["value"]` */
  function PriceValue(advert: Json): Result<Json, Exc> {
    var price :- Index(advert, "price");
    var amount :- Index(price, "amount");
    Index(amount, "value")
  }

  /** `float(advert["price"]["amount"]["value"])`, with `ValueError` and `TypeError` read as 0. */
  function SafePrice(advert: Json): (r: Result<int, Exc>)
    ensures r.Failure? <==> PriceValue(advert).Failure? && PriceValue(advert).error.KeyError?
    ensures r.Failure? ==> r == Failure(PriceValue(advert).error)
    ensures PriceValue(advert).Success? && FloatOf(PriceValue(advert).value).Success? ==>
      r == FloatOf(PriceValue(advert).value)
    ensures PriceValue(advert).Success? && FloatOf(PriceValue(advert).value).Failure? ==> r == Success(0)
    ensures PriceValue(advert) == Failure(TypeError) ==> r == Success(0)
  {
    match PriceValue(advert)
    case Success(v) =>
      (match FloatOf(v)
       case Success(p) => Success(p)
       case Failure(_) => Success(0))
    case Failure(e) => if e.KeyError? then Failure(e) else Success(0)
  }

  /** A missing level of the price path is a `KeyError`, not a zero price. */
  lemma SafePriceMissingValue(currency: Json)
    ensures SafePrice(JObj([("price", JObj([("amount", JObj([("currencyCode", currency)]))]))]))
            == Failure(KeyError("value"))
  {
    var amount := JObj([("currencyCode", currency)]);
    var price := JObj([("amount", amount)]);
    var advert := JObj([("price", price)]);
    assert Get(advert.fields, "price") == Some(price);
    assert Get(price.fields, "amount") == Some(amount);
    assert Get(amount.fields[..0], "value") == None;
    assert Get(amount.fields, "value") == None;
    assert PriceValue(advert) == Failure(KeyError("value"));
  }

  // ---------------------------------------------------------------------------
  // correct_polish_letters

  const Pol: map<char, char> :=
    map['ą' := 'a', 'ć' := 'c', 'ę' := 'e', 'ł' := 'l', 'ń' := 'n',
        'ó' := 'o', 'ś' := 's', 'ź' := 'z', 'ż' := 'z']

  predicate IsPolishLetter(c: char) {
    c in PolishCapitals || c in PolishSmalls
  }

  /** `pol[c.lower()] if c.lower() in pol else c` */
  function FoldChar(c: char): (r: char)
    ensures IsPolishLetter(c) ==> IsAsciiLower(r)
    ensures !IsPolishLetter(c) ==> r == c
  {
    if LowerChar(c) in Pol then Pol[LowerChar(c)] else c
  }

  /** Both cases of a Polish letter fold alike, since the table is consulted with `c.lower()`. */
  lemma FoldIgnoresCase(c: char)
    requires IsPolishLetter(c)
    ensures FoldChar(c) == FoldChar(LowerChar(c))
  {
    if c in PolishCapitals {
      assert LowerChar(c) == PolishCapitals[c] && LowerChar(c) in PolishSmalls;
    }
  }

  /** Each Polish letter, small or capital, folds to its base letter: ą, ć and ę. */
  lemma FoldedLettersACE()
    ensures FoldChar('ą') == 'a' && FoldChar('Ą') == 'a'
    ensures FoldChar('ć') == 'c' && FoldChar('Ć') == 'c'
    ensures FoldChar('ę') == 'e' && FoldChar('Ę') == 'e'
  {
  }

  /** ł, ń and ó. */
  lemma FoldedLettersLNO()
    ensures FoldChar('ł') == 'l' && FoldChar('Ł') == 'l'
    ensures FoldChar('ń') == 'n' && FoldChar('Ń') == 'n'
    ensures FoldChar('ó') == 'o' && FoldChar('Ó') == 'o'
  {
  }

  /** ś, and both ź and ż, which fold to the same `z`. */
  lemma FoldedLettersSZ()
    ensures FoldChar('ś') == 's' && FoldChar('Ś') == 's'
    ensures FoldChar('ź') == 'z' && FoldChar('Ź') == 'z'
    ensures FoldChar('ż') == 'z' && FoldChar('Ż') == 'z'
  {
  }

  /** `correct_polish_letters` on a string, or on `None`. */
  function CorrectPolishLetters(st: Option<string>): (r: string)
    ensures st.None? ==> r == ""
    ensures st.Some? ==> |r| == |st.value|
    ensures st.Some? ==> forall i :: 0 <= i < |r| ==> r[i] == FoldChar(st.value[i])
  {
    match st
    case None => ""
    case Some(s) => seq(|s|, i requires 0 <= i < |s| => FoldChar(s[i]))
  }

  /** Folded text holds no Polish letter, and every other character passes through unchanged. */
  lemma FoldingRemovesPolishLetters(s: string)
    ensures forall i :: 0 <= i < |s| ==> !IsPolishLetter(CorrectPolishLetters(Some(s))[i])
    ensures forall i :: 0 <= i < |s| && !IsPolishLetter(s[i]) ==> CorrectPolishLetters(Some(s))[i] == s[i]
  {
    forall i | 0 <= i < |s| ensures !IsPolishLetter(CorrectPolishLetters(Some(s))[i]) {
      FoldCharNotPolish(s[i]);
    }
  }

  /** A folded character is never a Polish letter. */
  lemma FoldCharNotPolish(c: char)
    ensures !IsPolishLetter(FoldChar(c))
  {
    if IsPolishLetter(c) {
      AsciiIsNotPolish(FoldChar(c));
    }
  }

  /** The Polish letters all lie outside ASCII. */
  lemma AsciiIsNotPolish(c: char)
    requires c as int < 0x80
    ensures !IsPolishLetter(c)
  {
  }

  lemma FoldingIdempotent(s: string)
    ensures CorrectPolishLetters(Some(CorrectPolishLetters(Some(s)))) == CorrectPolishLetters(Some(s))
  {
    var once := CorrectPolishLetters(Some(s));
    FoldingRemovesPolishLetters(s);
    assert forall i :: 0 <= i < |once| ==> FoldChar(once[i]) == once[i];
  }

  /** The pieces `correct_polish_letters` joins when its argument is iterated item by item. */
  function FoldPieces(items: seq<Json>): (r: Result<string, Exc>)
    decreases |items|
  {
    if |items| == 0 then Success("")
    else
      match items[0]
      case JStr(e) =>
        var rest :- FoldPieces(items[1..]);
        Success((if |e| == 1 then [FoldChar(e[0])] else e) + rest)
      case _ => Failure(AttributeError)
  }

  /** `correct_polish_letters(x)` on a decoded value: `None` gives `""`; a string, a list of
      strings or a dict with string keys is folded piece by piece; anything else raises. */
  function CorrectPolishLettersOf(x: Json): (r: Result<string, Exc>)
  {
    if x.JNull? then Success("")
    else
      var items :- Iterate(x);
      FoldPieces(items)
  }

  lemma {:induction false} FoldPiecesOfChars(s: string)
    ensures FoldPieces(seq(|s|, i requires 0 <= i < |s| => JStr([s[i]])))
            == Success(CorrectPolishLetters(Some(s)))
    decreases |s|
  {
    if |s| > 0 {
      var items := seq(|s|, i requires 0 <= i < |s| => JStr([s[i]]));
      CharItemsTail(s);
      FoldPiecesOfChars(s[1..]);
      FoldCons(s);
      FoldPiecesStep(items, s[0]);
    }
  }

  /** A one-character piece in front is folded and put in front of the rest. */
  lemma FoldPiecesStep(items: seq<Json>, c: char)
    requires |items| > 0 && items[0] == JStr([c]) && FoldPieces(items[1..]).Success?
    ensures FoldPieces(items) == Success([FoldChar(c)] + FoldPieces(items[1..]).value)
  {
    assert [c][0] == c;
  }

  lemma CharItemsTail(s: string)
    requires |s| > 0
    ensures seq(|s|, i requires 0 <= i < |s| => JStr([s[i]]))[1..] ==
            seq(|s| - 1, i requires 0 <= i < |s| - 1 => JStr([s[1..][i]]))
  {
  }

  lemma FoldCons(s: string)
    requires |s| > 0
    ensures CorrectPolishLetters(Some(s)) == [FoldChar(s[0])] + CorrectPolishLetters(Some(s[1..]))
  {
  }

  /** On the values the site sends (a string or `null`) the decoded-value version is the string one. */
  lemma CorrectPolishLettersOfString(x: Json)
    requires x.JStr? || x.JNull?
    ensures CorrectPolishLettersOf(x) ==
      Success(CorrectPolishLetters(if x.JStr? then Some(x.s) else None))
  {
    if x.JStr? {
      FoldPiecesOfChars(x.s);
    }
  }

  // ---------------------------------------------------------------------------
  // The lookup tables of extract_listings_from_graphql

  /** One `p[keyField]: p.get(valueField)` pair of a dict comprehension; the key must be hashable. */
  function TableEntry(p: Json, keyField: string, valueField: string): (r: Result<(Json, Json), Exc>)
  {
    var key :- Index(p, keyField);
    var value :- DictGet(p, valueField, JNull);
    if Hashable(key) then Success((key, value)) else Failure(TypeError)
  }

  /** The string-keyed part of a dict built from `pairs` in order (later pairs overwrite). */
  function MapOf(pairs: seq<(Json, Json)>): map<string, Json>
    decreases |pairs|
  {
    if |pairs| == 0 then map[]
    else
      var m := MapOf(pairs[..|pairs| - 1]);
      var last := pairs[|pairs| - 1];
      if last.0.JStr? then m[last.0.s := last.1] else m
  }

  /** A key is present exactly when some pair has it, and then holds the value of the last such pair. */
  lemma {:induction false} MapOfLastWins(pairs: seq<(Json, Json)>, k: string)
    ensures k in MapOf(pairs) <==> exists i :: 0 <= i < |pairs| && pairs[i].0 == JStr(k)
    ensures k in MapOf(pairs) ==>
      exists i :: 0 <= i < |pairs| && pairs[i].0 == JStr(k) && MapOf(pairs)[k] == pairs[i].1 &&
        forall j :: i < j < |pairs| ==> pairs[j].0 != JStr(k)
    decreases |pairs|
  {
    if |pairs| > 0 {
      var n := |pairs| - 1;
      var front := pairs[..n];
      MapOfLastWins(front, k);
      if pairs[n].0 == JStr(k) {
        assert MapOf(pairs) == MapOf(front)[k := pairs[n].1];
      } else {
        MapOfOtherKey(pairs, k);
        if k in MapOf(front) {
          var i :| 0 <= i < n && front[i].0 == JStr(k) && MapOf(front)[k] == front[i].1 &&
                   forall j :: i < j < n ==> front[j].0 != JStr(k);
          assert pairs[i] == front[i];
          assert forall j :: i < j < |pairs| ==> pairs[j].0 != JStr(k) by {
            forall j | i < j < |pairs| ensures pairs[j].0 != JStr(k) {
              if j < n { assert pairs[j] == front[j]; }
            }
          }
        } else {
          forall i | 0 <= i < |pairs| ensures pairs[i].0 != JStr(k) {
            if i < n { assert pairs[i] == front[i]; }
          }
        }
      }
    }
  }

  /** A final pair with another key leaves the entry for `k` as it was. */
  lemma MapOfOtherKey(pairs: seq<(Json, Json)>, k: string)
    requires |pairs| > 0 && pairs[|pairs| - 1].0 != JStr(k)
    ensures var front := MapOf(pairs[..|pairs| - 1]);
      && (k in MapOf(pairs) <==> k in front)
      && (k in front ==> MapOf(pairs)[k] == front[k])
  {
  }

  /** `{p[keyField]: p.get(valueField) for p in entries}` */
  function Table(entries: seq<Json>, keyField: string, valueField: string): (r: Result<map<string, Json>, Exc>)
  {
    var pairs :- Traverse(entries, p => TableEntry(p, keyField, valueField));
    Success(MapOf(pairs))
  }

  /** `table.get(k, default)` */
  function Lookup(table: map<string, Json>, k: string, default: Json): Json {
    if k in table then table[k] else default
  }

  // ---------------------------------------------------------------------------
  // extract_listings_from_graphql

  /** The record built for one edge. Prices are integers in this model. */
  datatype Listing = Listing(
    id: Json, title: Json, dateAdded: Json, shortDescription: string, url: Json,
    sellerName: string, sellerSite: Json, brand: Json, model: Json, version: Json,
    price: int, currency: Json, year: int, fuelType: Json, mileage: int, gearbox: Json,
    countryCode: Json, countryOrigin: string, engineCapacity: int, enginePower: int,
    city: string, region: string, bumpUp: Json, exportOlx: Json, priceEvaluation: Json,
    cepikVerified: Json)

  /** The dict the source appends for a listing, by column name. */
  function ListingFields(l: Listing): map<string, Json> {
    map[
      "id" := l.id, "title" := l.title, "date_added" := l.dateAdded,
      "short_description" := JStr(l.shortDescription), "url" := l.url,
      "seller_name" := JStr(l.sellerName), "seller_site" := l.sellerSite,
      "brand" := l.brand, "model" := l.model, "version" := l.version,
      "price" := JNum(l.price), "currency" := l.currency, "year" := JNum(l.year),
      "fuel_type" := l.fuelType, "mileage" := JNum(l.mileage), "gearbox" := l.gearbox,
      "country_code" := l.countryCode, "country_origin" := JStr(l.countryOrigin),
      "engine_capacity" := JNum(l.engineCapacity), "engine_power" := JNum(l.enginePower),
      "city" := JStr(l.city), "region" := JStr(l.region), "bump_up" := l.bumpUp,
      "export_olx" := l.exportOlx, "priceevaluation" := l.priceEvaluation,
      "cepikVerified" := l.cepikVerified]
  }

  /** `int(params.get(k, 0))` */
  function IntParam(params: map<string, Json>, k: string): (r: Result<int, Exc>)
    ensures k !in params ==> r == Success(0)
    ensures k in params ==> r == IntOf(params[k])
  {
    IntOf(Lookup(params, k, JNum(0)))
  }

  /** The body of the loop over edges, evaluated in the order the source writes it: the three
      lookup tables, then the record's fields from `id` to `seller_site`, from `price` to
      `engine_power`, and from `city` to `cepikVerified`. */
  function ListingOfEdge(edge: Json): (r: Result<Listing, Exc>)
  {
    var advert :- Index(edge, "node");
    var tables :- TablesOf(advert);
    var params := tables.0;
    var head :- HeadOf(advert);
    var money :- NumbersOf(advert, params, tables.1);
    var place :- PlaceOf(advert);
    Success(Listing(
      head.0, head.1, head.2, head.3, head.4, head.5, head.6,
      Lookup(params, "make", JNull), Lookup(params, "model", JNull), Lookup(params, "version", JNull),
      money.0, money.1, money.2, Lookup(params, "fuel_type", JNull), money.3, Lookup(params, "gearbox", JNull),
      Lookup(params, "country_origin", JNull), money.4, money.5, money.6,
      place.0, place.1, Lookup(params, "bump_up", JNull), Lookup(params, "export_olx", JNull),
      place.2, place.3))
  }

  /** `params`, `parm_country` and `misc`; `misc` is built only for its errors. */
  function TablesOf(advert: Json): Result<(map<string, Json>, map<string, Json>), Exc> {
    var parameters :- DictGet(advert, "parameters", JArr([]));
    var parameterItems :- Iterate(parameters);
    var params :- Table(parameterItems, "key", "value");
    var parmCountry :- Table(parameterItems, "key", "displayValue");
    var services :- DictGet(advert, "valueAddedServices", JArr([]));
    var serviceItems :- Iterate(services);
    var _ :- Table(serviceItems, "name", "validity");
    Success((params, parmCountry))
  }

  /** The fields from `id` to `seller_site`. */
  function HeadOf(advert: Json): Result<(Json, Json, Json, string, Json, string, Json), Exc> {
    var id :- Index(advert, "id");
    var title :- Index(advert, "title");
    var dateAdded :- Index(advert, "createdAt");
    var rawDescription :- Index(advert, "shortDescription");
    var shortDescription :- CorrectPolishLettersOf(rawDescription);
    var url :- Index(advert, "url");
    var sellerLink :- Index(advert, "sellerLink");
    var rawSellerName :- Index(sellerLink, "name");
    var sellerName :- CorrectPolishLettersOf(rawSellerName);
    var sellerSite :- Index(sellerLink, "websiteUrl");
    Success((id, title, dateAdded, shortDescription, url, sellerName, sellerSite))
  }

  /** The fields from `price` to `engine_power` that can fail: price, currency, year, mileage,
      country of origin, engine capacity and engine power. */
  function NumbersOf(advert: Json, params: map<string, Json>, parmCountry: map<string, Json>):
    Result<(int, Json, int, int, string, int, int), Exc>
  {
    var price :- SafePrice(advert);
    var priceObj :- Index(advert, "price");
    var amount :- Index(priceObj, "amount");
    var currency :- Index(amount, "currencyCode");
    var year :- IntParam(params, "year");
    var mileage :- IntParam(params, "mileage");
    var countryOrigin :- CorrectPolishLettersOf(Lookup(parmCountry, "country_origin", JNull));
    var engineCapacity :- IntParam(params, "engine_capacity");
    var enginePower :- IntParam(params, "engine_power");
    Success((price, currency, year, mileage, countryOrigin, engineCapacity, enginePower))
  }

  /** The fields from `city` to `cepikVerified` that can fail. */
  function PlaceOf(advert: Json): Result<(string, string, Json, Json), Exc> {
    var location :- Index(advert, "location");
    var cityObj :- Index(location, "city");
    var rawCity :- Index(cityObj, "name");
    var city :- CorrectPolishLettersOf(rawCity);
    var regionObj :- Index(location, "region");
    var rawRegion :- Index(regionObj, "name");
    var region :- CorrectPolishLettersOf(rawRegion);
    var evaluation :- Index(advert, "priceEvaluation");
    var indicator :- Index(evaluation, "indicator");
    var cepikVerified :- Index(advert, "cepikVerified");
    Success((city, region, indicator, cepikVerified))
  }

  /** A listing's fields are read from its advert (`edge["node"]`): the keyed fields as they
      are, the price through safe_price, and the parameters through the `params` table. */
  lemma ListingOfAdvert(edge: Json)
    requires ListingOfEdge(edge).Success?
    ensures Index(edge, "node").Success? && TablesOf(Index(edge, "node").value).Success?
    ensures var advert, l := Index(edge, "node").value, ListingOfEdge(edge).value;
      var params := TablesOf(advert).value.0;
      && Index(advert, "id") == Success(l.id)
      && Index(advert, "url") == Success(l.url)
      && Index(advert, "cepikVerified") == Success(l.cepikVerified)
      && SafePrice(advert) == Success(l.price)
      && IntParam(params, "year") == Success(l.year)
      && IntParam(params, "mileage") == Success(l.mileage)
      && l.brand == Lookup(params, "make", JNull)
      && l.model == Lookup(params, "model", JNull)
      && l.countryCode == Lookup(params, "country_origin", JNull)
      && IntParam(params, "engine_capacity") == Success(l.engineCapacity)
      && IntParam(params, "engine_power") == Success(l.enginePower)
      && l.version == Lookup(params, "version", JNull)
      && l.fuelType == Lookup(params, "fuel_type", JNull)
      && l.gearbox == Lookup(params, "gearbox", JNull)
  {
    var advert := Index(edge, "node").value;
    var tables := TablesOf(advert).value;
    var money := NumbersOf(advert, tables.0, tables.1);
    assert HeadOf(advert).Success? && money.Success? && PlaceOf(advert).Success?;
    HeadFields(advert);
    NumbersFields(advert, tables.0, tables.1);
    PlaceFields(advert);
  }

  /** The text fields of a listing are the advert's, with Polish letters folded: the short
      description, the seller's name, the city and region names, and the country of origin
      read from the `displayValue` table. */
  lemma ListingTextOfAdvert(edge: Json)
    requires ListingOfEdge(edge).Success?
    ensures Index(edge, "node").Success? && TablesOf(Index(edge, "node").value).Success?
    ensures var advert, l := Index(edge, "node").value, ListingOfEdge(edge).value;
      && Index(advert, "shortDescription").Success?
      && CorrectPolishLettersOf(Index(advert, "shortDescription").value) == Success(l.shortDescription)
      && Index(advert, "sellerLink").Success? && Index(Index(advert, "sellerLink").value, "name").Success?
      && CorrectPolishLettersOf(Index(Index(advert, "sellerLink").value, "name").value) == Success(l.sellerName)
      && CorrectPolishLettersOf(Lookup(TablesOf(advert).value.1, "country_origin", JNull)) ==
           Success(l.countryOrigin)
      && Index(advert, "location").Success?
      && PlaceName(Index(advert, "location").value, "city").Success?
      && CorrectPolishLettersOf(PlaceName(Index(advert, "location").value, "city").value) == Success(l.city)
      && PlaceName(Index(advert, "location").value, "region").Success?
      && CorrectPolishLettersOf(PlaceName(Index(advert, "location").value, "region").value) == Success(l.region)
  {
    var advert := Index(edge, "node").value;
    var tables := TablesOf(advert).value;
    var money := NumbersOf(advert, tables.0, tables.1);
    assert HeadOf(advert).Success? && money.Success? && PlaceOf(advert).Success?;
    HeadText(advert);
    NumbersText(advert, tables.0, tables.1);
    PlaceText(advert);
  }

  /** `location[level]["name"]` */
  function PlaceName(location: Json, level: string): Result<Json, Exc> {
    var obj :- Index(location, level);
    Index(obj, "name")
  }

  lemma HeadFields(advert: Json)
    requires HeadOf(advert).Success?
    ensures Index(advert, "id") == Success(HeadOf(advert).value.0)
    ensures Index(advert, "url") == Success(HeadOf(advert).value.4)
  {
  }

  lemma HeadText(advert: Json)
    requires HeadOf(advert).Success?
    ensures Index(advert, "shortDescription").Success?
    ensures CorrectPolishLettersOf(Index(advert, "shortDescription").value) == Success(HeadOf(advert).value.3)
    ensures Index(advert, "sellerLink").Success? && Index(Index(advert, "sellerLink").value, "name").Success?
    ensures CorrectPolishLettersOf(Index(Index(advert, "sellerLink").value, "name").value) ==
      Success(HeadOf(advert).value.5)
  {
  }

  lemma NumbersFields(advert: Json, params: map<string, Json>, parmCountry: map<string, Json>)
    requires NumbersOf(advert, params, parmCountry).Success?
    ensures var n := NumbersOf(advert, params, parmCountry).value;
      && SafePrice(advert) == Success(n.0)
      && IntParam(params, "year") == Success(n.2)
      && IntParam(params, "mileage") == Success(n.3)
      && IntParam(params, "engine_capacity") == Success(n.5)
      && IntParam(params, "engine_power") == Success(n.6)
  {
  }

  lemma NumbersText(advert: Json, params: map<string, Json>, parmCountry: map<string, Json>)
    requires NumbersOf(advert, params, parmCountry).Success?
    ensures CorrectPolishLettersOf(Lookup(parmCountry, "country_origin", JNull)) ==
      Success(NumbersOf(advert, params, parmCountry).value.4)
  {
  }

  lemma PlaceFields(advert: Json)
    requires PlaceOf(advert).Success?
    ensures Index(advert, "cepikVerified") == Success(PlaceOf(advert).value.3)
  {
  }

  lemma PlaceText(advert: Json)
    requires PlaceOf(advert).Success?
    ensures Index(advert, "location").Success?
    ensures var location := Index(advert, "location").value;
      && PlaceName(location, "city").Success?
      && CorrectPolishLettersOf(PlaceName(location, "city").value) == Success(PlaceOf(advert).value.0)
      && PlaceName(location, "region").Success?
      && CorrectPolishLettersOf(PlaceName(location, "region").value) == Success(PlaceOf(advert).value.1)
  {
  }

  /** The dict comprehensions run before the record is built, so a malformed `parameters` list
      raises even when a field such as `id` is also missing; and once the tables are built, a
      missing `id` is the first field to raise. */
  lemma ListingErrorOrder(edge: Json)
    requires Index(edge, "node").Success?
    ensures var advert := Index(edge, "node").value;
      && (TablesOf(advert).Failure? ==> ListingOfEdge(edge) == Failure(TablesOf(advert).error))
      && (TablesOf(advert).Success? && Index(advert, "id").Failure? ==>
            ListingOfEdge(edge) == Failure(KeyError("id")))
  {
    var advert := Index(edge, "node").value;
    if TablesOf(advert).Success? && Index(advert, "id").Failure? {
      assert advert.JObj? by {
        assert DictGet(advert, "parameters", JArr([])).Success?;
      }
    }
  }

  /** `graphql_json["advertSearch"]["edges"]`, as the loop iterates it. */
  function Edges(graphqlJson: Json): Result<seq<Json>, Exc> {
    var search :- Index(graphqlJson, "advertSearch");
    var edges :- Index(search, "edges");
    Iterate(edges)
  }

  /** The records `extract_listings_from_graphql` returns, or the exception it raises. */
  function Listings(graphqlJson: Json): (r: Result<seq<Listing>, Exc>)
    ensures Edges(graphqlJson).Failure? ==> r == Failure(Edges(graphqlJson).error)
  {
    var edges :- Edges(graphqlJson);
    Traverse(edges, ListingOfEdge)
  }

  /** Exactly one record per edge, in edge order; otherwise the exception of the first bad edge. */
  lemma OneListingPerEdge(graphqlJson: Json)
    requires Edges(graphqlJson).Success?
    ensures var edges := Edges(graphqlJson).value;
      match Listings(graphqlJson)
      case Success(ls) =>
        |ls| == |edges| && forall i :: 0 <= i < |edges| ==> ListingOfEdge(edges[i]) == Success(ls[i])
      case Failure(e) =>
        exists i :: 0 <= i < |edges| && ListingOfEdge(edges[i]) == Failure(e) &&
          forall j :: 0 <= j < i ==> ListingOfEdge(edges[j]).Success?
  {
  }

  method ExtractListingsFromGraphql(graphqlJson: Json) returns (r: Result<seq<Listing>, Exc>)
    ensures r == Listings(graphqlJson)
  {
    var edges :- Edges(graphqlJson);
    var listings: seq<Listing> := [];
    var i := 0;
    while i < |edges|
      invariant 0 <= i <= |edges|
      invariant Traverse(edges[..i], ListingOfEdge) == Success(listings)
    {
      var listing := ListingOfEdge(edges[i]);
      if listing.Failure? {
        TraverseExtendFailure(edges, ListingOfEdge, i);
        return Failure(listing.error);
      }
      TraverseExtend(edges, ListingOfEdge, i, listings, listing.value);
      listings := listings + [listing.value];
      i := i + 1;
    }
    assert edges[..i] == edges;
    return Success(listings);
  }

  // ---------------------------------------------------------------------------
  // parse_graphql

  /** What `parse_graphql(html)` returns or raises. */
  function GraphqlListings(html: string, soup: Soup, loads: Loads): (r: Result<seq<Listing>, Exc>)
  {
    var text :- PropsScript(soup.scripts(html));
    var nextData :- Decode(loads, text, Outer);
    var urqlState :- ExtractUrqlState(nextData);
    var entry :- AdvertSearchState(urqlState);
    var graphqlJson :- DecodeGraphqlData(entry, loads);
    Listings(graphqlJson)
  }

  method ParseGraphql(html: string, soup: Soup, loads: Loads) returns (r: Result<seq<Listing>, Exc>)
    ensures r == GraphqlListings(html, soup, loads)
  {
    var text :- FindPropsScript(soup.scripts(html));
    var nextData :- Decode(loads, text, Outer);
    var urqlState :- ExtractUrqlState(nextData);
    var entry :- FindAdvertSearchState(urqlState);
    var graphqlJson :- DecodeGraphqlData(entry, loads);
    r := ExtractListingsFromGraphql(graphqlJson);
  }

  /** The two decodings fail separately: a page whose props script does not decode fails at
      the outer step, ... */
  lemma OuterDecodeFails(html: string, soup: Soup, loads: Loads)
    requires PropsScript(soup.scripts(html)).Success?
    requires loads(PropsScript(soup.scripts(html)).value).None?
    ensures GraphqlListings(html, soup, loads) == Failure(DecodeError(Outer))
  {
  }

  /** ... and one whose results entry does not decode fails at the inner step. */
  lemma InnerDecodeFails(html: string, soup: Soup, loads: Loads, nextData: Json, entry: Json, data: string)
    requires PropsScript(soup.scripts(html)).Success?
    requires loads(PropsScript(soup.scripts(html)).value) == Some(nextData)
    requires ExtractUrqlState(nextData).Success?
    requires AdvertSearchState(ExtractUrqlState(nextData).value) == Success(entry)
    requires Index(entry, "data") == Success(JStr(data)) && loads(data).None?
    ensures GraphqlListings(html, soup, loads) == Failure(DecodeError(Inner))
  {
  }

  /** The entry the search returns always carries its results as a string under `data`. */
  lemma AdvertSearchStateData(urqlState: Json)
    requires AdvertSearchState(urqlState).Success?
    ensures var entry := AdvertSearchState(urqlState).value;
      Index(entry, "data").Success? && Index(entry, "data").value.JStr? &&
      Contains(Index(entry, "data").value.s, "advertSearch")
  {
    var entries := Values(urqlState).value;
    var i := AdvertSearchEntryFound(entries);
  }
}
