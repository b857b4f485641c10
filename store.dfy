/** The module-level item store and the three handlers that change it:
    create appends, update rewrites one item in place, delete splices one
    item out. */
module Store {
  import opened JsValues
  import opened Api
  import Validation

  /** `findIndex(item => item.id === key)`: the first position whose id is
      `key`. A NaN key (an id parseInt could not read) is never found. */
  function FirstIndex(items: seq<Item>, key: Number): (r: Option<nat>)
    ensures r.None? <==> forall j :: 0 <= j < |items| ==> Finite(items[j].id) != key
    ensures r.Some? ==> r.value < |items| && Finite(items[r.value].id) == key
    ensures r.Some? ==> forall j :: 0 <= j < r.value ==> Finite(items[j].id) != key
  {
    if items == [] then None
    else if Finite(items[0].id) == key then Some(0)
    else match FirstIndex(items[1..], key)
      case None => None
      case Some(i) => Some(i + 1)
  }

  /** The presence check of the create handler: every field truthy, so an
      absent field, a price of 0 and an empty name or category all fail it. */
  predicate Complete(body: Body)
    ensures Complete(body) ==> !body.name.Undefined? && !body.price.Undefined? && !body.category.Undefined?
    ensures Complete(body) ==> body.price != Num(0) && body.name != Str("") && body.category != Str("")
  {
    Truthy(body.name) && Truthy(body.price) && Truthy(body.category)
  }

  /** How the field writes of the update handler end: all of them done and
      the item stamped, or cut short by a throwing parseFloat after the name
      was written. */
  datatype PatchOutcome = Completed(item: Item) | Interrupted(item: Item)

  /** The writes of the update handler into one item, in the handler's
      order: name, then price through parseFloat, then category, each only
      when the request value is truthy, then the `updatedAt` stamp. */
  function Patch(item: Item, body: Body, now: string): (r: PatchOutcome)
    // only a truthy price whose conversion throws cuts the writes short
    ensures r.Interrupted? <==> Truthy(body.price) && ParseFloat(body.price).Throws?
    ensures r.item.id == item.id && r.item.createdAt == item.createdAt
    ensures Truthy(body.name) ==> r.item.name == body.name
    ensures !Truthy(body.name) ==> r.item.name == item.name
    // an interrupted update has written the name and nothing after it
    ensures r.Interrupted? ==>
      r.item.price == item.price && r.item.category == item.category && r.item.updatedAt == item.updatedAt
    ensures r.Completed? ==> r.item.updatedAt == Some(now)
    ensures r.Completed? && Truthy(body.price) ==> Value(r.item.price) == ParseFloat(body.price)
    ensures !Truthy(body.price) ==> r.item.price == item.price
    ensures r.Completed? && Truthy(body.category) ==> r.item.category == body.category
    ensures !Truthy(body.category) ==> r.item.category == item.category
  {
    var named := if Truthy(body.name) then item.(name := body.name) else item;
    if Truthy(body.price) && ParseFloat(body.price).Throws? then Interrupted(named)
    else
      var priced := if Truthy(body.price) then named.(price := ParseFloat(body.price).num) else named;
      var categorised := if Truthy(body.category) then priced.(category := body.category) else priced;
      Completed(categorised.(updatedAt := Some(now)))
  }

  /** The in-memory collection `customData`. The unused `nextId` counter is
      not represented: no handler reads it. `now` stands for the ISO-8601
      text of the wall clock at the time of the request. */
  class ItemStore {
    var items: seq<Item>

    constructor ()
      ensures items == InitialItems
    {
      items := InitialItems;
    }

    /** `createCustomData`: on a body with a falsy field answer 400 and
        leave the store alone; when parseFloat throws on the price, answer
        500 before anything is pushed; otherwise append an item whose id is
        the store's length plus one and answer 201 with it. */
    method Create(body: Body, now: string) returns (r: Response)
      modifies this
      ensures !Complete(body) ==>
        r == Response(400, Failure(MissingFieldsError)) && items == old(items)
      ensures Complete(body) && ParseFloat(body.price).Throws? ==>
        r == Response(500, Failure(InternalError)) && items == old(items)
      ensures Complete(body) && ParseFloat(body.price).Value? ==>
        r.status == 201 && r.body.SingleItem? && r.body.message == CreatedMessage &&
        items == old(items) + [r.body.item]
      ensures Complete(body) && ParseFloat(body.price).Value? ==>
        var x := r.body.item;
        x.id == |old(items)| + 1 && x.name == body.name && x.category == body.category &&
        Value(x.price) == ParseFloat(body.price) && x.createdAt == Some(now) && x.updatedAt == None
    {
      if !Complete(body) {
        return Response(400, Failure(MissingFieldsError));
      }
      var price := ParseFloat(body.price);
      if price.Throws? {
        return Response(500, Failure(InternalError));
      }
      var newItem := Item(|items| + 1, body.name, price.num, body.category, Some(now), None);
      items := items + [newItem];
      r := Response(201, SingleItem(newItem, CreatedMessage));
    }

    /** `updateCustomData`: find the first item whose id equals
        parseInt(idParam); answer 404 if there is none. Otherwise write the
        truthy fields into that item one after the other and stamp it, then
        answer 200 with it; a price whose conversion throws stops the
        writes after the name and answers 500. */
    method Update(idParam: string, body: Body, now: string) returns (r: Response)
      modifies this
      ensures FirstIndex(old(items), ParseInt(idParam)).None? ==>
        r == Response(404, Failure(NotFoundError)) && items == old(items)
      ensures FirstIndex(old(items), ParseInt(idParam)).Some? ==>
        var i := FirstIndex(old(items), ParseInt(idParam)).value;
        var p := Patch(old(items)[i], body, now);
        items == old(items)[i := p.item] &&
        (p.Completed? ==> r == Response(200, SingleItem(p.item, UpdatedMessage))) &&
        (p.Interrupted? ==> r == Response(500, Failure(InternalError)))
    {
      var found := FirstIndex(items, ParseInt(idParam));
      if found.None? {
        return Response(404, Failure(NotFoundError));
      }
      var i := found.value;
      ghost var before := items;
      var item := items[i];
      if Truthy(body.name) {
        item := item.(name := body.name);
        items := items[i := item];
      }
      if Truthy(body.price) {
        var price := ParseFloat(body.price);
        if price.Throws? {
          assert Patch(before[i], body, now) == Interrupted(item);
          return Response(500, Failure(InternalError));
        }
        item := item.(price := price.num);
        items := items[i := item];
      }
      if Truthy(body.category) {
        item := item.(category := body.category);
        items := items[i := item];
      }
      item := item.(updatedAt := Some(now));
      items := items[i := item];
      assert item == Patch(before[i], body, now).item;
      r := Response(200, SingleItem(item, UpdatedMessage));
    }

    /** `deleteCustomData`: find the first item whose id equals
        parseInt(idParam); answer 404 if there is none, otherwise splice it
        out and answer 200 with the removed item. */
    method Delete(idParam: string) returns (r: Response)
      modifies this
      ensures FirstIndex(old(items), ParseInt(idParam)).None? ==>
        r == Response(404, Failure(NotFoundError)) && items == old(items)
      ensures FirstIndex(old(items), ParseInt(idParam)).Some? ==>
        var i := FirstIndex(old(items), ParseInt(idParam)).value;
        items == old(items)[..i] + old(items)[i + 1..] &&
        r == Response(200, SingleItem(old(items)[i], DeletedMessage))
    {
      var found := FirstIndex(items, ParseInt(idParam));
      if found.None? {
        return Response(404, Failure(NotFoundError));
      }
      var i := found.value;
      var deleted := items[i];
      items := items[..i] + items[i + 1..];
      r := Response(200, SingleItem(deleted, DeletedMessage));
    }
  }

  /** A body the validation middleware lets through passes the create
      handler's own presence check, and its price is stored as given. */
  lemma ValidatedBodyIsCreated(body: Body)
    requires Validation.Validate(body) == Validation.Next
    ensures Complete(body)
    ensures ParseFloat(body.price) == Value(Finite(body.price.n)) && body.price.n != 0
  {
  }

  /** An update whose body carries only a price that converts changes the
      price and the update stamp and nothing else. */
  lemma PriceOnlyUpdate(item: Item, body: Body, now: string)
    requires !Truthy(body.name) && !Truthy(body.category) && Truthy(body.price)
    requires ParseFloat(body.price).Value?
    ensures Patch(item, body, now) ==
      Completed(item.(price := ParseFloat(body.price).num, updatedAt := Some(now)))
  {
  }

  /** Delete takes out exactly one occurrence of the removed item: the new
      store and the removed item together are the old store. */
  lemma RemovalIsExact(s: seq<Item>, i: nat)
    requires i < |s|
    ensures multiset(s[..i] + s[i + 1..]) + multiset{s[i]} == multiset(s)
    ensures |s[..i] + s[i + 1..]| == |s| - 1
  {
    assert s == s[..i] + [s[i]] + s[i + 1..];
  }

  /** Ids are pairwise distinct. */
  ghost predicate UniqueIds(s: seq<Item>) {
    forall i, j :: 0 <= i < j < |s| ==> s[i].id != s[j].id
  }

  /** Every item's id is its position plus one, as in the initial store. */
  ghost predicate DenseIds(s: seq<Item>) {
    forall i :: 0 <= i < |s| ==> s[i].id == i + 1
  }

  lemma InitialIdsAreDense()
    ensures DenseIds(InitialItems)
  {
  }

  /** While ids are dense they are distinct. */
  lemma DenseIdsAreUnique(s: seq<Item>)
    requires DenseIds(s)
    ensures UniqueIds(s)
  {
  }

  /** While ids are dense, the item with id k sits at position k - 1, and
      any other key is not found. */
  lemma DenseLookup(s: seq<Item>, key: Number)
    requires DenseIds(s)
    ensures key.Finite? && 1 <= key.v <= |s| ==> FirstIndex(s, key) == Some(key.v - 1)
    ensures !(key.Finite? && 1 <= key.v <= |s|) ==> FirstIndex(s, key) == None
  {
    if key.Finite? && 1 <= key.v <= |s| {
      assert Finite(s[key.v - 1].id) == key;
    }
  }

  /** The length-based id keeps ids dense while nothing but the last item
      has been deleted. */
  lemma CreateKeepsIdsDense(s: seq<Item>, x: Item)
    requires DenseIds(s) && x.id == |s| + 1
    ensures DenseIds(s + [x])
  {
  }

  /** Update keeps every id, hence keeps ids dense. */
  lemma UpdateKeepsIdsDense(s: seq<Item>, i: nat, body: Body, now: string)
    requires DenseIds(s) && i < |s|
    ensures DenseIds(s[i := Patch(s[i], body, now).item])
  {
  }

  /** With distinct ids, once the item with a key is deleted no item with
      that key is left. */
  lemma DeleteRemovesUniqueKey(s: seq<Item>, key: Number)
    requires UniqueIds(s)
    requires FirstIndex(s, key).Some?
    ensures FirstIndex(s[..FirstIndex(s, key).value] + s[FirstIndex(s, key).value + 1..], key).None?
  {
    var i := FirstIndex(s, key).value;
    var t := s[..i] + s[i + 1..];
    forall j | 0 <= j < |t|
      ensures Finite(t[j].id) != key
    {
      if j < i {
        assert t[j] == s[j];
      } else {
        assert t[j] == s[j + 1];
      }
    }
  }

  /** Deleting the last item keeps ids dense. */
  lemma DeleteLastKeepsIdsDense(s: seq<Item>)
    requires DenseIds(s) && s != []
    ensures DenseIds(s[..|s| - 1])
  {
  }

  /** Deleting any item but the last from a store with dense ids makes the
      next create hand out the id of the last item again. */
  lemma DeleteBeforeLastRepeatsId(s: seq<Item>, i: nat, x: Item)
    requires DenseIds(s) && i + 1 < |s|
    requires x.id == |s[..i] + s[i + 1..]| + 1
    ensures !UniqueIds(s[..i] + s[i + 1..] + [x])
  {
    var t := s[..i] + s[i + 1..] + [x];
    assert t[|s| - 2] == s[|s| - 1];
    assert t[|s| - 1] == x;
  }

  /** Because the new id is the store's length plus one, a create that
      follows a delete can hand out an id that is still in use: deleting
      item 1 from the initial store (through any path id that parseInt reads
      as 1, such as "1") and creating an item leaves two items with id 3. */
  method DeleteThenCreateRepeatsId(idParam: string, body: Body, now: string) returns (ids: seq<int>)
    requires ParseInt(idParam) == Finite(1)
    requires Complete(body) && ParseFloat(body.price).Value?
    ensures ids == [2, 3, 3]
  {
    var store := new ItemStore();
    assert FirstIndex(InitialItems, Finite(1)) == Some(0);
    var deleted := store.Delete(idParam);
    assert store.items == InitialItems[..0] + InitialItems[1..];
    assert store.items[0].id == 2 && store.items[1].id == 3 && |store.items| == 2;
    var created := store.Create(body, now);
    ids := [store.items[0].id, store.items[1].id, store.items[2].id];
  }

  /** The path id "1" reads as 1. */
  lemma PathOneIsIdOne()
    ensures ParseInt("1") == Finite(1)
  {
    assert DigitChar(1) == '1';
    assert NatToDecimal(1) == "1";
    DecimalRoundTrip(1);
  }
}
