/** The merge of the two extractors' results (src/parser/merger.py): each GraphQL listing is
    paired with the first JSON-LD offer that has the same price and mileage, and the two records
    are combined with the listing's fields taking precedence. */
module Merger {
  import opened Wrappers
  import opened Json
  import opened GraphqlParser
  import opened JsonLdParser
  import opened Collect

  /** `ld["price"] == gql_item["price"] and ld["mileage"] == gql_item["mileage"]`; an offer
      whose price or mileage is `None` matches no listing. */
  predicate Matches(ld: Offer, g: Listing) {
    ld.price == Some(g.price) && ld.mileage == Some(g.mileage)
  }

  /** `next((ld for ld in jsonld if ...), {})`, with `None` for `{}`. */
  function FirstMatch(jsonld: seq<Offer>, g: Listing): (m: Option<Offer>)
    ensures m.Some? <==> exists i :: 0 <= i < |jsonld| && Matches(jsonld[i], g)
    ensures m.Some? ==>
      exists i :: 0 <= i < |jsonld| && jsonld[i] == m.value && Matches(m.value, g) &&
        forall j :: 0 <= j < i ==> !Matches(jsonld[j], g)
    decreases |jsonld|
  {
    if |jsonld| == 0 then None
    else if Matches(jsonld[0], g) then Some(jsonld[0])
    else
      var rest := jsonld[1..];
      var m := FirstMatch(rest, g);
      assert forall i :: 0 <= i < |rest| ==> rest[i] == jsonld[i + 1];
      assert m.Some? ==>
        exists i :: 0 <= i < |jsonld| && jsonld[i] == m.value && Matches(m.value, g) &&
          forall j :: 0 <= j < i ==> !Matches(jsonld[j], g) by {
        if m.Some? {
          var i :| 0 <= i < |rest| && rest[i] == m.value && Matches(m.value, g) &&
                   forall j :: 0 <= j < i ==> !Matches(rest[j], g);
          assert forall j :: 0 <= j < i + 1 ==> !Matches(jsonld[j], g) by {
            forall j | 0 <= j < i + 1 ensures !Matches(jsonld[j], g) {
              if j > 0 { assert jsonld[j] == rest[j - 1]; }
            }
          }
        }
      }
      assert (exists i :: 0 <= i < |jsonld| && Matches(jsonld[i], g)) ==>
             exists i :: 0 <= i < |rest| && Matches(rest[i], g) by {
        if exists i :: 0 <= i < |jsonld| && Matches(jsonld[i], g) {
          var i :| 0 <= i < |jsonld| && Matches(jsonld[i], g);
          assert i > 0 && rest[i - 1] == jsonld[i];
        }
      }
      m
  }

  /** `{**match, **gql_item}` */
  function Combine(m: Option<Offer>, g: Listing): map<string, Json> {
    (if m.Some? then OfferFields(m.value) else map[]) + ListingFields(g)
  }

  /** The list `merge_jsonld_and_graphql(jsonld, graphql)` returns. */
  function Merged(jsonld: seq<Offer>, graphql: seq<Listing>): (r: seq<map<string, Json>>)
    ensures |r| == |graphql|
    ensures forall i :: 0 <= i < |graphql| ==> r[i] == Combine(FirstMatch(jsonld, graphql[i]), graphql[i])
  {
    seq(|graphql|, i requires 0 <= i < |graphql| => Combine(FirstMatch(jsonld, graphql[i]), graphql[i]))
  }

  /** The record the loop body appends for one listing. */
  function MergeWith(jsonld: seq<Offer>): Listing -> map<string, Json> {
    g => Combine(FirstMatch(jsonld, g), g)
  }

  method MergeJsonldAndGraphql(jsonld: seq<Offer>, graphql: seq<Listing>) returns (merged: seq<map<string, Json>>)
    ensures merged == Merged(jsonld, graphql)
  {
    merged := [];
    var i := 0;
    while i < |graphql|
      invariant 0 <= i <= |graphql| && |merged| == i
      invariant forall j :: 0 <= j < i ==> merged[j] == MergeWith(jsonld)(graphql[j])
    {
      var gqlItem := graphql[i];
      var found := FirstMatch(jsonld, gqlItem);
      var record := Combine(found, gqlItem);
      assert record == MergeWith(jsonld)(graphql[i]);
      MapExtend(graphql, MergeWith(jsonld), merged, i);
      merged := merged + [record];
      i := i + 1;
    }
  }

  // ---------------------------------------------------------------------------
  // Properties

  /** The keys of the JSON-LD record that the GraphQL record does not have: only `source`. */
  lemma OfferAddsOnlySource(o: Offer, g: Listing)
    ensures OfferFields(o).Keys - ListingFields(g).Keys == {"source"}
  {
    assert "source" !in ListingFields(g);
  }

  /** Every field of the GraphQL listing survives the merge unchanged, and the merged record adds
      a `source` field, marked `json_ld`, exactly when a JSON-LD offer matched. */
  lemma MergedRecord(jsonld: seq<Offer>, g: Listing)
    ensures var r := Combine(FirstMatch(jsonld, g), g);
      && (forall k :: k in ListingFields(g) ==> k in r && r[k] == ListingFields(g)[k])
      && ("source" in r <==> exists i :: 0 <= i < |jsonld| && Matches(jsonld[i], g))
      && ("source" in r ==> r["source"] == JStr("json_ld"))
      && r.Keys == ListingFields(g).Keys + (if "source" in r then {"source"} else {})
  {
    var m := FirstMatch(jsonld, g);
    assert "source" !in ListingFields(g);
    if m.Some? {
      OfferAddsOnlySource(m.value, g);
    }
  }

  /** Without a matching offer the merged record is the GraphQL record itself. */
  lemma NoMatchKeepsListing(jsonld: seq<Offer>, g: Listing)
    requires forall i :: 0 <= i < |jsonld| ==> !Matches(jsonld[i], g)
    ensures Combine(FirstMatch(jsonld, g), g) == ListingFields(g)
  {
  }

  /** The search is first-come: offers after the first match are never consulted, and offers
      before it that match nothing can be dropped. */
  lemma {:induction false} FirstMatchAppend(a: seq<Offer>, b: seq<Offer>, g: Listing)
    ensures FirstMatch(a + b, g) == if FirstMatch(a, g).Some? then FirstMatch(a, g) else FirstMatch(b, g)
    decreases |a|
  {
    if |a| > 0 {
      assert (a + b)[1..] == a[1..] + b;
      FirstMatchAppend(a[1..], b, g);
    } else {
      assert a + b == b;
    }
  }

  /** Merging never drops, duplicates or reorders GraphQL listings: the `i`-th merged record
      carries the `i`-th listing's fields. */
  lemma MergePreservesListings(jsonld: seq<Offer>, graphql: seq<Listing>)
    ensures |Merged(jsonld, graphql)| == |graphql|
    ensures forall i, k :: 0 <= i < |graphql| && k in ListingFields(graphql[i]) ==>
      k in Merged(jsonld, graphql)[i] && Merged(jsonld, graphql)[i][k] == ListingFields(graphql[i])[k]
  {
    forall i | 0 <= i < |graphql| {
      MergedRecord(jsonld, graphql[i]);
    }
  }

  /** An offer that matches no listing changes nothing, wherever it is inserted. */
  lemma UnmatchedOfferIsIgnored(before: seq<Offer>, o: Offer, after: seq<Offer>, graphql: seq<Listing>)
    requires forall i :: 0 <= i < |graphql| ==> !Matches(o, graphql[i])
    ensures Merged(before + [o] + after, graphql) == Merged(before + after, graphql)
  {
    forall i | 0 <= i < |graphql|
      ensures FirstMatch(before + [o] + after, graphql[i]) == FirstMatch(before + after, graphql[i])
    {
      var g := graphql[i];
      FirstMatchAppend(before + [o], after, g);
      FirstMatchAppend(before, [o], g);
      FirstMatchAppend(before, after, g);
      assert FirstMatch([o], g) == None by {
        assert [o][1..] == [];
      }
    }
  }
}
