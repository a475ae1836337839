/** The price of a model: the first applicable rule in an order the database only partly fixes. */
module Prices {
  import opened Sums
  import opened Tables

  predicate Applies(row: PriceRule, model: string) {
    row.modelPrefix == "*" || row.modelPrefix <= model
  }

  /** The price of the first applicable row, or the fallback. */
  function FirstPrice(items: seq<PriceRule>, model: string, fallback: int): int {
    if items == [] then fallback
    else if Applies(items[0], model) then items[0].pricePer1MMicros
    else FirstPrice(items[1..], model, fallback)
  }

  /** An answer to the query: the enabled rows, longest prefixes first, ties in any order. */
  predicate Listing(items: seq<PriceRule>, rows: seq<PriceRule>) {
    && multiset(items) == multiset(Filter(rows, (r: PriceRule) => r.enabled))
    && forall i, j :: 0 <= i < j < |items| ==> |items[i].modelPrefix| >= |items[j].modelPrefix|
  }

  /** The column's unique index. */
  predicate UniquePrefixes(rows: seq<PriceRule>) {
    forall i, j :: 0 <= i < j < |rows| ==> rows[i].modelPrefix != rows[j].modelPrefix
  }

  method ResolveModelPriceMicros(items: seq<PriceRule>, model: string, fallback: int) returns (price: int)
    ensures price == FirstPrice(items, model, fallback)
  {
    for i := 0 to |items|
      invariant FirstPrice(items[i..], model, fallback) == FirstPrice(items, model, fallback)
    {
      if items[i].modelPrefix == "*" || items[i].modelPrefix <= model {
        return items[i].pricePer1MMicros;
      }
      assert items[i..][1..] == items[i + 1..];
    }
    return fallback;
  }

  /** An enabled applicable row no other enabled applicable row is longer than. */
  predicate Longest(row: PriceRule, rows: seq<PriceRule>, model: string) {
    && row in rows && row.enabled && Applies(row, model)
    && forall other :: other in rows && other.enabled && Applies(other, model) ==> |other.modelPrefix| <= |row.modelPrefix|
  }

  lemma ListingMembers(items: seq<PriceRule>, rows: seq<PriceRule>)
    requires Listing(items, rows)
    ensures forall r :: r in items <==> r in rows && r.enabled
  {
    var enabled := Filter(rows, (r: PriceRule) => r.enabled);
    FilterMembers(rows, (r: PriceRule) => r.enabled);
    forall r ensures r in items <==> r in enabled {
      assert r in items <==> r in multiset(items);
      assert r in enabled <==> r in multiset(enabled);
    }
  }

  lemma {:induction false} FirstPriceAt(items: seq<PriceRule>, i: nat, model: string, fallback: int)
    requires i < |items| && Applies(items[i], model)
    requires forall j :: 0 <= j < i ==> !Applies(items[j], model)
    ensures FirstPrice(items, model, fallback) == items[i].pricePer1MMicros
  {
    if i > 0 {
      FirstPriceAt(items[1..], i - 1, model, fallback);
    }
  }

  lemma {:induction false} FirstApplicable(items: seq<PriceRule>, model: string, fallback: int) returns (i: nat)
    ensures i <= |items|
    ensures forall j :: 0 <= j < i ==> !Applies(items[j], model)
    ensures i < |items| ==> Applies(items[i], model) && FirstPrice(items, model, fallback) == items[i].pricePer1MMicros
    ensures i == |items| ==> FirstPrice(items, model, fallback) == fallback
  {
    if items == [] || Applies(items[0], model) {
      i := 0;
    } else {
      var k := FirstApplicable(items[1..], model, fallback);
      i := k + 1;
    }
  }

  /** The first applicable price of a listing is that of a longest applicable row. */
  lemma FirstIsLongest(items: seq<PriceRule>, rows: seq<PriceRule>, model: string, fallback: int)
    requires Listing(items, rows)
    ensures (forall r :: r in rows && r.enabled ==> !Applies(r, model)) ==> FirstPrice(items, model, fallback) == fallback
    ensures (exists r :: r in rows && r.enabled && Applies(r, model)) ==>
              exists r :: Longest(r, rows, model) && FirstPrice(items, model, fallback) == r.pricePer1MMicros
  {
    ListingMembers(items, rows);
    var i := FirstApplicable(items, model, fallback);
    if i < |items| {
      assert items[i] in items;
      forall other | other in rows && other.enabled && Applies(other, model)
        ensures |other.modelPrefix| <= |items[i].modelPrefix|
      {
        assert other in items;
        var j :| 0 <= j < |items| && items[j] == other;
      }
      assert Longest(items[i], rows, model);
    } else {
      forall r | r in rows && r.enabled ensures !Applies(r, model) {
        assert r in items;
      }
    }
  }

  /** The row is enabled, and its prefix is `*` or begins the model. */
  predicate Prices(row: PriceRule, model: string) {
    row.enabled && (row.modelPrefix == "*" || (|row.modelPrefix| <= |model| && model[..|row.modelPrefix|] == row.modelPrefix))
  }

  /** The price is that of an enabled row with a longest matching prefix, `*` matching all, and the fallback when no row matches. */
  lemma PriceIsLongestMatch(items: seq<PriceRule>, rows: seq<PriceRule>, model: string, fallback: int)
    requires Listing(items, rows)
    ensures var price := FirstPrice(items, model, fallback);
            if exists r :: r in rows && Prices(r, model) then
              exists r :: r in rows && Prices(r, model) && price == r.pricePer1MMicros
                && forall other :: other in rows && Prices(other, model) ==> |other.modelPrefix| <= |r.modelPrefix|
            else price == fallback
  {
    FirstIsLongest(items, rows, model, fallback);
    assert forall r: PriceRule :: Prices(r, model) <==> r.enabled && Applies(r, model);
    if r :| r in rows && Prices(r, model) {
      assert r in rows && r.enabled && Applies(r, model);
      var best :| Longest(best, rows, model) && FirstPrice(items, model, fallback) == best.pricePer1MMicros;
      assert Prices(best, model);
    }
  }

  /**
   The one case the order decides: `*` and the model's first character are both
   enabled prefixes, at different prices, and nothing longer applies.
   */
  predicate Clash(star: PriceRule, letter: PriceRule, rows: seq<PriceRule>, model: string) {
    && star in rows && star.enabled && star.modelPrefix == "*"
    && letter in rows && letter.enabled && |letter.modelPrefix| == 1 && letter.modelPrefix != "*" && letter.modelPrefix <= model
    && star.pricePer1MMicros != letter.pricePer1MMicros
    && forall other :: other in rows && other.enabled && Applies(other, model) ==> |other.modelPrefix| <= 1
  }

  ghost predicate OrderIrrelevant(rows: seq<PriceRule>, model: string, fallback: int) {
    forall a, b :: Listing(a, rows) && Listing(b, rows) ==> FirstPrice(a, model, fallback) == FirstPrice(b, model, fallback)
  }

  lemma SameLengthPrefixes(a: string, b: string, s: string)
    requires a <= s && b <= s && |a| == |b|
    ensures a == b
  {
    assert a == s[..|a|] == b;
  }

  lemma SamePrefixSameRow(rows: seq<PriceRule>, r: PriceRule, s: PriceRule)
    requires UniquePrefixes(rows) && r in rows && s in rows && r.modelPrefix == s.modelPrefix
    ensures r == s
  {
    var i :| 0 <= i < |rows| && rows[i] == r;
    var j :| 0 <= j < |rows| && rows[j] == s;
  }

  lemma LongestAgree(rows: seq<PriceRule>, model: string, r: PriceRule, s: PriceRule)
    requires UniquePrefixes(rows) && Longest(r, rows, model) && Longest(s, rows, model)
    requires forall star, letter :: !Clash(star, letter, rows, model)
    ensures r.pricePer1MMicros == s.pricePer1MMicros
  {
    assert !Clash(r, s, rows, model) && !Clash(s, r, rows, model);
    if r.modelPrefix <= model && s.modelPrefix <= model {
      SameLengthPrefixes(r.modelPrefix, s.modelPrefix, model);
    }
    if r.modelPrefix == s.modelPrefix {
      SamePrefixSameRow(rows, r, s);
    }
  }

  function Swap(items: seq<PriceRule>, i: nat, j: nat): seq<PriceRule>
    requires i < |items| && j < |items|
  {
    items[i := items[j]][j := items[i]]
  }

  lemma SwapPermutes(items: seq<PriceRule>, i: nat, j: nat)
    requires i < |items| && j < |items|
    ensures multiset(Swap(items, i, j)) == multiset(items)
  {
  }

  lemma SwapKeepsLengths(items: seq<PriceRule>, i: nat, j: nat, k: nat)
    requires i < |items| && j < |items| && k < |items| && |items[i].modelPrefix| == |items[j].modelPrefix|
    ensures |Swap(items, i, j)[k].modelPrefix| == |items[k].modelPrefix|
  {
  }

  lemma SwapIsListing(items: seq<PriceRule>, rows: seq<PriceRule>, i: nat, j: nat)
    requires Listing(items, rows) && i < |items| && j < |items|
    requires |items[i].modelPrefix| == |items[j].modelPrefix|
    ensures Listing(Swap(items, i, j), rows)
  {
    var swapped := Swap(items, i, j);
    SwapPermutes(items, i, j);
    forall k, m | 0 <= k < m < |swapped| ensures |swapped[k].modelPrefix| >= |swapped[m].modelPrefix| {
      SwapKeepsLengths(items, i, j, k);
      SwapKeepsLengths(items, i, j, m);
      assert |items[k].modelPrefix| >= |items[m].modelPrefix|;
    }
  }

  lemma OnlyTheTwoApply(rows: seq<PriceRule>, model: string, star: PriceRule, letter: PriceRule, r: PriceRule)
    requires UniquePrefixes(rows) && Clash(star, letter, rows, model)
    requires r in rows && Applies(r, model) && |r.modelPrefix| == 1
    ensures r == star || r == letter
  {
    if r.modelPrefix == "*" {
      SamePrefixSameRow(rows, r, star);
    } else {
      SameLengthPrefixes(r.modelPrefix, letter.modelPrefix, model);
      SamePrefixSameRow(rows, r, letter);
    }
  }

  /** In a clash, an order and the same order with the two rows exchanged price the model differently. */
  lemma ClashSwaps(items: seq<PriceRule>, rows: seq<PriceRule>, model: string, fallback: int, star: PriceRule, letter: PriceRule)
    requires Listing(items, rows) && UniquePrefixes(rows) && Clash(star, letter, rows, model)
    ensures !OrderIrrelevant(rows, model, fallback)
  {
    ListingMembers(items, rows);
    assert star in items && letter in items;
    var i := FirstApplicable(items, model, fallback);
    var a :| 0 <= a < |items| && items[a] == star;
    var b :| 0 <= b < |items| && items[b] == letter;
    assert i <= a && i <= b && items[i] in items;
    OnlyTheTwoApply(rows, model, star, letter, items[i]);
    var j := if items[i] == star then b else a;
    var swapped := Swap(items, i, j);
    assert forall k :: 0 <= k < i ==> swapped[k] == items[k];
    FirstPriceAt(swapped, i, model, fallback);
    SwapIsListing(items, rows, i, j);
  }

  /** Which answer the database gives for ties matters exactly in a clash. */
  lemma OrderIrrelevantExactlyWithoutClash(items: seq<PriceRule>, rows: seq<PriceRule>, model: string, fallback: int)
    requires UniquePrefixes(rows) && Listing(items, rows)
    ensures OrderIrrelevant(rows, model, fallback) <==> forall star, letter :: !Clash(star, letter, rows, model)
  {
    if star, letter :| Clash(star, letter, rows, model) {
      ClashSwaps(items, rows, model, fallback, star, letter);
    } else {
      forall a, b | Listing(a, rows) && Listing(b, rows)
        ensures FirstPrice(a, model, fallback) == FirstPrice(b, model, fallback)
      {
        FirstIsLongest(a, rows, model, fallback);
        FirstIsLongest(b, rows, model, fallback);
        if exists r :: r in rows && r.enabled && Applies(r, model) {
          var r :| Longest(r, rows, model) && FirstPrice(a, model, fallback) == r.pricePer1MMicros;
          var s :| Longest(s, rows, model) && FirstPrice(b, model, fallback) == s.pricePer1MMicros;
          LongestAgree(rows, model, r, s);
        }
      }
    }
  }
}
