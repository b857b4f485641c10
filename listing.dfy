/** The list handler: three optional query filters applied one after the
    other to the store, each keeping the store's order. */
module Listing {
  import opened JsValues
  import opened Api

  /** The query string of a list request; each parameter may be absent. */
  datatype Query = Query(category: Option<string>, minPrice: Option<string>, maxPrice: Option<string>)

  /** The test of one `.filter` stage. */
  datatype Criterion =
    | InCategory(name: string)
    | PriceAtLeast(bound: Number)
    | PriceAtMost(bound: Number)

  /** Category comparison is strict equality with the query string, so a
      stored category that is not a string never matches. */
  predicate Satisfies(item: Item, c: Criterion) {
    match c
    case InCategory(name) => item.category == Str(name)
    case PriceAtLeast(b) => AtLeast(item.price, b)
    case PriceAtMost(b) => AtMost(item.price, b)
  }

  /** `items.filter(...)` with the test of one criterion. */
  function Keep(items: seq<Item>, c: Criterion): (r: seq<Item>)
    ensures |r| <= |items|
  {
    if items == [] then []
    else (if Satisfies(items[0], c) then [items[0]] else []) + Keep(items[1..], c)
  }

  /** One stage of the handler: filter when the parameter is truthy, pass
      the sequence through otherwise. */
  function Stage(items: seq<Item>, given: bool, c: Criterion): seq<Item> {
    if given then Keep(items, c) else items
  }

  /** The three `.filter` stages of the handler, in the handler's order:
      category, minimum price, maximum price (bounds read with parseInt). */
  function Chain(store: seq<Item>, q: Query): (r: seq<Item>)
    ensures |r| <= |store|
    ensures forall x :: x in r ==> x in store
  {
    var byCategory := Stage(store, Given(q.category), CategoryCriterion(q));
    var byMin := Stage(byCategory, Given(q.minPrice), MinCriterion(q));
    var byMax := Stage(byMin, Given(q.maxPrice), MaxCriterion(q));
    KeepIncluded(store, CategoryCriterion(q));
    KeepIncluded(byCategory, MinCriterion(q));
    KeepIncluded(byMin, MaxCriterion(q));
    byMax
  }

  function CategoryCriterion(q: Query): Criterion {
    InCategory(if Given(q.category) then q.category.value else "")
  }

  function MinCriterion(q: Query): Criterion {
    PriceAtLeast(if Given(q.minPrice) then ParseInt(q.minPrice.value) else NaN)
  }

  function MaxCriterion(q: Query): Criterion {
    PriceAtMost(if Given(q.maxPrice) then ParseInt(q.maxPrice.value) else NaN)
  }

  /** `getCustomData`: answer 200 with the filtered items and their count. */
  function List(store: seq<Item>, q: Query): (r: Response)
    ensures r.status == 200 && r.body.ItemList? && r.body.message == ListedMessage
    ensures r.body.total == |r.body.data| <= |store|
    ensures forall x :: x in r.body.data ==> x in store
  {
    var data := Chain(store, q);
    Response(200, ItemList(data, |data|, ListedMessage))
  }

  /** The conjunction of every filter the query sets: an absent or empty
      parameter imposes nothing. */
  predicate Matches(q: Query, item: Item) {
    (Given(q.category) ==> item.category == Str(q.category.value)) &&
    (Given(q.minPrice) ==> AtLeast(item.price, ParseInt(q.minPrice.value))) &&
    (Given(q.maxPrice) ==> AtMost(item.price, ParseInt(q.maxPrice.value)))
  }

  /** Reference selection: the items of `s` that match `q`, in the order of `s`. */
  function Select(s: seq<Item>, q: Query): (r: seq<Item>)
    ensures |r| <= |s|
  {
    if s == [] then []
    else (if Matches(q, s[0]) then [s[0]] else []) + Select(s[1..], q)
  }

  /** An item is selected exactly when it is in the store and matches;
      when nothing matches, nothing is selected. */
  lemma {:induction false} SelectMembership(s: seq<Item>, q: Query)
    ensures forall x :: x in Select(s, q) <==> x in s && Matches(q, x)
    ensures (forall x :: x in s ==> !Matches(q, x)) ==> Select(s, q) == []
  {
    if s != [] {
      SelectMembership(s[1..], q);
      assert s == [s[0]] + s[1..];
    }
  }

  /** A filter stage keeps only items it was given, and only those that
      pass its test. */
  lemma {:induction false} KeepIncluded(items: seq<Item>, c: Criterion)
    ensures forall x :: x in Keep(items, c) ==> x in items && Satisfies(x, c)
  {
    if items != [] {
      KeepIncluded(items[1..], c);
      assert items == [items[0]] + items[1..];
    }
  }

  lemma {:induction false} KeepConcat(a: seq<Item>, b: seq<Item>, c: Criterion)
    ensures Keep(a + b, c) == Keep(a, c) + Keep(b, c)
  {
    if a == [] {
      assert a + b == b;
    } else {
      var h := if Satisfies(a[0], c) then [a[0]] else [];
      var ab := a + b;
      assert ab != [] && ab[0] == a[0] && ab[1..] == a[1..] + b;
      calc {
        Keep(ab, c);
        h + Keep(a[1..] + b, c);
        { KeepConcat(a[1..], b, c); }
        h + (Keep(a[1..], c) + Keep(b, c));
        (h + Keep(a[1..], c)) + Keep(b, c);
        Keep(a, c) + Keep(b, c);
      }
    }
  }

  lemma StageConcat(a: seq<Item>, b: seq<Item>, given: bool, c: Criterion)
    ensures Stage(a + b, given, c) == Stage(a, given, c) + Stage(b, given, c)
  {
    if given {
      KeepConcat(a, b, c);
    }
  }

  /** Selection respects the order of the store: selecting from two parts
      and concatenating is selecting from the whole. */
  lemma {:induction false} SelectConcat(a: seq<Item>, b: seq<Item>, q: Query)
    ensures Select(a + b, q) == Select(a, q) + Select(b, q)
  {
    if a == [] {
      assert a + b == b;
    } else {
      var h := if Matches(q, a[0]) then [a[0]] else [];
      var ab := a + b;
      assert ab != [] && ab[0] == a[0] && ab[1..] == a[1..] + b;
      calc {
        Select(ab, q);
        h + Select(a[1..] + b, q);
        { SelectConcat(a[1..], b, q); }
        h + (Select(a[1..], q) + Select(b, q));
        (h + Select(a[1..], q)) + Select(b, q);
        Select(a, q) + Select(b, q);
      }
    }
  }

  lemma KeepSingleton(x: Item, c: Criterion)
    ensures Keep([x], c) == if Satisfies(x, c) then [x] else []
  {
    assert [x][1..] == [];
  }

  lemma ChainConcat(a: seq<Item>, b: seq<Item>, q: Query)
    ensures Chain(a + b, q) == Chain(a, q) + Chain(b, q)
  {
    var s1a, s1b := Stage(a, Given(q.category), CategoryCriterion(q)), Stage(b, Given(q.category), CategoryCriterion(q));
    StageConcat(a, b, Given(q.category), CategoryCriterion(q));
    StageConcat(s1a, s1b, Given(q.minPrice), MinCriterion(q));
    var s2a, s2b := Stage(s1a, Given(q.minPrice), MinCriterion(q)), Stage(s1b, Given(q.minPrice), MinCriterion(q));
    StageConcat(s2a, s2b, Given(q.maxPrice), MaxCriterion(q));
  }

  lemma ChainSingleton(x: Item, q: Query)
    ensures Chain([x], q) == if Matches(q, x) then [x] else []
  {
    KeepSingleton(x, CategoryCriterion(q));
    KeepSingleton(x, MinCriterion(q));
    KeepSingleton(x, MaxCriterion(q));
  }

  /** The chain of `.filter` calls returns exactly the items of the store
      that satisfy every given filter, in store order. */
  lemma {:induction false} ListSelectsMatching(store: seq<Item>, q: Query)
    ensures List(store, q).body.data == Select(store, q)
    ensures List(store, q).body.total == |Select(store, q)|
  {
    if store != [] {
      assert store == [store[0]] + store[1..];
      ChainConcat([store[0]], store[1..], q);
      ChainSingleton(store[0], q);
      ListSelectsMatching(store[1..], q);
    }
  }

  /** With no filter given the whole store is returned, in order. */
  lemma {:induction false} NoFilterListsEverything(store: seq<Item>, q: Query)
    requires !Given(q.category) && !Given(q.minPrice) && !Given(q.maxPrice)
    ensures List(store, q).body.data == store
    ensures List(store, q).body.total == |store|
  {
  }

  /** The minimum bound is inclusive: an item priced exactly at it is
      listed whenever it passes the other given filters. */
  lemma MinBoundInclusive(store: seq<Item>, q: Query, x: Item)
    requires x in store
    requires Given(q.minPrice) && ParseInt(q.minPrice.value) == x.price && x.price.Finite?
    requires Given(q.category) ==> x.category == Str(q.category.value)
    requires Given(q.maxPrice) ==> AtMost(x.price, ParseInt(q.maxPrice.value))
    ensures x in List(store, q).body.data
  {
    ListSelectsMatching(store, q);
    SelectMembership(store, q);
  }

  /** The maximum bound is inclusive: an item priced exactly at it is
      listed whenever it passes the other given filters. */
  lemma MaxBoundInclusive(store: seq<Item>, q: Query, x: Item)
    requires x in store
    requires Given(q.maxPrice) && ParseInt(q.maxPrice.value) == x.price && x.price.Finite?
    requires Given(q.category) ==> x.category == Str(q.category.value)
    requires Given(q.minPrice) ==> AtLeast(x.price, ParseInt(q.minPrice.value))
    ensures x in List(store, q).body.data
  {
    ListSelectsMatching(store, q);
    SelectMembership(store, q);
  }

  /** A price bound that parseInt cannot read is NaN, and every comparison
      with NaN is false, so nothing is listed. */
  lemma MalformedBoundListsNothing(store: seq<Item>, q: Query)
    requires (Given(q.minPrice) && ParseInt(q.minPrice.value) == NaN)
          || (Given(q.maxPrice) && ParseInt(q.maxPrice.value) == NaN)
    ensures List(store, q).body.data == [] && List(store, q).body.total == 0
  {
    ListSelectsMatching(store, q);
    SelectMembership(store, q);
  }

  /** Filtering by a category no item has answers success with no data. */
  lemma UnknownCategoryListsNothing(store: seq<Item>, q: Query)
    requires Given(q.category)
    requires forall x :: x in store ==> x.category != Str(q.category.value)
    ensures List(store, q) == Response(200, ItemList([], 0, ListedMessage))
  {
    ListSelectsMatching(store, q);
    SelectMembership(store, q);
  }

  lemma ParseMinPrice()
    ensures ParseInt("150") == Finite(150)
  {
    assert DigitChar(1) == '1' && DigitChar(5) == '5' && DigitChar(0) == '0';
    assert NatToDecimal(1) == "1";
    assert NatToDecimal(15) == NatToDecimal(1) + "5" == "15";
    assert NatToDecimal(150) == NatToDecimal(15) + "0" == "150";
    DecimalRoundTrip(150);
  }

  /** On the initial store, `?minPrice=150` (or any minimum that parseInt
      reads as 150) lists items 2 and 3 with total 2. */
  lemma MinPriceExample(bound: string)
    requires bound != [] && ParseInt(bound) == Finite(150)
    ensures List(InitialItems, Query(None, Some(bound), None))
         == Response(200, ItemList([InitialItems[1], InitialItems[2]], 2, ListedMessage))
  {
    var q := Query(None, Some(bound), None);
    ListSelectsMatching(InitialItems, q);
    SelectInitialItems(q);
  }

  lemma SelectInitialItems(q: Query)
    requires q.category == None && q.maxPrice == None
    requires Given(q.minPrice) && ParseInt(q.minPrice.value) == Finite(150)
    ensures Select(InitialItems, q) == [InitialItems[1], InitialItems[2]]
  {
    var s := InitialItems;
    assert !Matches(q, s[0]);
    assert Matches(q, s[1]);
    assert Matches(q, s[2]);
    assert Select(s[2..], q) == [s[2]] by {
      assert s[2..][1..] == [];
    }
    assert Select(s[1..], q) == [s[1], s[2]] by {
      assert s[1..][1..] == s[2..];
    }
  }
}
