/**
  Writing orders: the multi-item creation of the REST interface, the
  single-item creation of the web form, the web status edit and the REST
  partial update. Each is a function from the store's collections (and the
  clock reading `now` and the id `newId` the database assigns) to the new
  order document, the new orders collection, or the failure.
 */
module Orders {
  import opened Wrappers
  import opened Values
  import opened Records
  import opened Updates

  /** `OrderItemModel`. */
  datatype ItemRequest = ItemRequest(fruitId: string, quantityKg: real)

  /** `OrderModel`, with `status` already defaulted (see `ParseOrderRequest`). */
  datatype OrderRequest = OrderRequest(customerId: string, items: seq<ItemRequest>, status: string)

  /** The default of `OrderModel.status`. */
  const DefaultStatus := "Pending"

  /** The request body as the model validates it: a missing `status` becomes `DefaultStatus`. */
  function ParseOrderRequest(customerId: string, items: seq<ItemRequest>, status: Option<string>): (r: OrderRequest)
    ensures r.customerId == customerId && r.items == items
    ensures status.Some? ==> r.status == status.value
    ensures status.None? ==> r.status == "Pending"
  {
    OrderRequest(customerId, items, status.GetOr(DefaultStatus))
  }

  /** One stored order item: `{"fruitId": ObjectId(...), "quantityKg": q}`. */
  function ItemDoc(fruitHex: string, quantityKg: real): Value {
    Dict([("fruitId", Oid(fruitHex)), ("quantityKg", Float(quantityKg))])
  }

  /** A stored order; `insert_one` puts the assigned `_id` first. */
  function OrderDoc(id: string, now: Value, customerId: string, items: seq<Value>, total: Value, status: string): Entries {
    [("_id", Oid(id)), ("orderDate", now), ("customerId", Str(customerId)), ("items", List(items)),
     ("totalAmount", total), ("status", Str(status))]
  }

  /** The fields of a stored order, read back by name. */
  lemma OrderDocFields(id: string, now: Value, customerId: string, items: seq<Value>, total: Value, status: string)
    ensures var doc := OrderDoc(id, now, customerId, items, total, status);
      && Lookup(doc, "_id") == Some(Oid(id))
      && Lookup(doc, "orderDate") == Some(now)
      && Lookup(doc, "customerId") == Some(Str(customerId))
      && Lookup(doc, "items") == Some(List(items))
      && Lookup(doc, "totalAmount") == Some(total)
      && Lookup(doc, "status") == Some(Str(status))
  {
    var doc := OrderDoc(id, now, customerId, items, total, status);
    LookupDistinct(doc);
    assert doc[0].0 == "_id" && doc[1].0 == "orderDate" && doc[2].0 == "customerId";
    assert doc[3].0 == "items" && doc[4].0 == "totalAmount" && doc[5].0 == "status";
  }

  // ---------------------------------------------------------------------
  // The REST creation

  /**
    One item of `create_order_api`: its id must parse as an ObjectId, name a
    stored fruit, and ask for no more than that fruit's stock.
   */
  function CheckItem(fruits: seq<Fruit>, item: ItemRequest): (r: Result<Fruit>)
    ensures r == Err(InvalidId(item.fruitId)) <==> ParseObjectId(Str(item.fruitId)).None?
    ensures r == Err(FruitWithIdNotFound(item.fruitId))
        <==> && ParseObjectId(Str(item.fruitId)).Some?
             && forall i :: 0 <= i < |fruits| ==> fruits[i].id != ParseObjectId(Str(item.fruitId)).value
    ensures r.Err? && r.failure.InsufficientStock? ==>
        exists i :: 0 <= i < |fruits| && Some(fruits[i].id) == ParseObjectId(Str(item.fruitId))
          && r.failure == InsufficientStock(fruits[i].name, fruits[i].stockKg)
          && (fruits[i].stockKg as real) < item.quantityKg
    ensures r.Ok? ==> r.value in fruits && ParseObjectId(Str(item.fruitId)) == Some(r.value.id)
    ensures r.Ok? ==> item.quantityKg <= r.value.stockKg as real
  {
    match ParseObjectId(Str(item.fruitId))
    case None => Err(InvalidId(item.fruitId))
    case Some(h) =>
      match FruitWithId(fruits, Oid(h))
      case None => Err(FruitWithIdNotFound(item.fruitId))
      case Some(f) =>
        if (f.stockKg as real) < item.quantityKg then Err(InsufficientStock(f.name, f.stockKg)) else Ok(f)
  }

  /** The stock check accepts exactly the quantities up to the stock, including the stock itself. */
  lemma StockBoundary(fruits: seq<Fruit>, item: ItemRequest)
    requires ParseObjectId(Str(item.fruitId)).Some?
    requires FruitWithId(fruits, Oid(ParseObjectId(Str(item.fruitId)).value)).Some?
    ensures var f := FruitWithId(fruits, Oid(ParseObjectId(Str(item.fruitId)).value)).value;
      && (CheckItem(fruits, item).Ok? <==> item.quantityKg <= f.stockKg as real)
      && (CheckItem(fruits, item).Err? ==> CheckItem(fruits, item) == Err(InsufficientStock(f.name, f.stockKg)))
  {
  }

  /** The items checked in order; the first item that fails decides the outcome. */
  function ResolveItems(fruits: seq<Fruit>, items: seq<ItemRequest>): (r: Result<seq<Fruit>>)
    ensures r.Ok? <==> forall i :: 0 <= i < |items| ==> CheckItem(fruits, items[i]).Ok?
    ensures r.Ok? ==> |r.value| == |items|
    ensures r.Ok? ==> forall i :: 0 <= i < |items| ==> CheckItem(fruits, items[i]) == Ok(r.value[i])
  {
    if |items| == 0 then Ok([])
    else
      match CheckItem(fruits, items[0])
      case Err(f) => Err(f)
      case Ok(fruit) =>
        match ResolveItems(fruits, items[1..])
        case Err(f) => Err(f)
        case Ok(rest) => Ok([fruit] + rest)
  }

  /** When the items before `k` pass and item `k` fails, the request fails as item `k` does. */
  lemma {:induction false} FirstFailingItem(fruits: seq<Fruit>, items: seq<ItemRequest>, k: nat)
    requires k < |items|
    requires forall j :: 0 <= j < k ==> CheckItem(fruits, items[j]).Ok?
    requires CheckItem(fruits, items[k]).Err?
    ensures ResolveItems(fruits, items) == Err(CheckItem(fruits, items[k]).failure)
  {
    if k > 0 {
      assert CheckItem(fruits, items[0]).Ok?;
      assert forall j :: 0 <= j < k - 1 ==> items[1..][j] == items[j + 1];
      FirstFailingItem(fruits, items[1..], k - 1);
    }
  }

  /** Items that each pass their check resolve to exactly the fruits they were checked against. */
  lemma AllItemsPass(fruits: seq<Fruit>, items: seq<ItemRequest>, fs: seq<Fruit>)
    requires |fs| == |items|
    requires forall j :: 0 <= j < |items| ==> CheckItem(fruits, items[j]) == Ok(fs[j])
    ensures ResolveItems(fruits, items) == Ok(fs)
  {
    var r := ResolveItems(fruits, items);
    assert forall j :: 0 <= j < |items| ==> CheckItem(fruits, items[j]).Ok?;
    assert r.Ok?;
    forall j | 0 <= j < |items| ensures r.value[j] == fs[j] {
      assert CheckItem(fruits, items[j]) == Ok(r.value[j]);
    }
    assert r.value == fs;
  }

  /** `fruit["pricePerKg"] * quantityKg`. */
  function LineTotal(f: Fruit, quantityKg: real): real {
    f.pricePerKg * quantityKg
  }

  /** `sum(fruit["pricePerKg"] * item.quantityKg)`, accumulated from the first item on. */
  function ItemsTotal(fruits: seq<Fruit>, items: seq<ItemRequest>): real
    requires |fruits| == |items|
  {
    if |items| == 0 then 0.0
    else ItemsTotal(fruits[..|fruits| - 1], items[..|items| - 1])
         + LineTotal(fruits[|fruits| - 1], items[|items| - 1].quantityKg)
  }

  /** The total of a concatenation is the sum of the totals. */
  lemma {:induction false} ItemsTotalAppend(fs: seq<Fruit>, items: seq<ItemRequest>, gs: seq<Fruit>, more: seq<ItemRequest>)
    requires |fs| == |items| && |gs| == |more|
    ensures ItemsTotal(fs + gs, items + more) == ItemsTotal(fs, items) + ItemsTotal(gs, more)
    decreases |more|
  {
    if |more| > 0 {
      var n := |more| - 1;
      assert (fs + gs)[..|fs + gs| - 1] == fs + gs[..n];
      assert (items + more)[..|items + more| - 1] == items + more[..n];
      ItemsTotalAppend(fs, items, gs[..n], more[..n]);
    } else {
      assert fs + gs == fs && items + more == items;
    }
  }

  /** The stored items of an accepted request: each requested item with its fruit's canonical id. */
  function ApiItemDocs(fruits: seq<Fruit>, items: seq<ItemRequest>): (docs: seq<Value>)
    requires |fruits| == |items|
    ensures |docs| == |items|
  {
    seq(|items|, i requires 0 <= i < |items| => ItemDoc(fruits[i].id, items[i].quantityKg))
  }

  /** The total as `create_order_api` computes it: the integer 0 until an item adds a float. */
  function TotalValue(fruits: seq<Fruit>, items: seq<ItemRequest>): Value
    requires |fruits| == |items|
  {
    if |items| == 0 then Int(0) else Float(ItemsTotal(fruits, items))
  }

  /** An accepted order: the document to insert and the `total_amount` of the response. */
  datatype Created = Created(order: Entries, totalAmount: Value)

  /**
    `create_order_api`: the customer must exist by its `customerId`, then every
    item must pass `CheckItem`; the order stores the items by ObjectId and the
    total as computed.
   */
  function ApiCreate(customers: seq<Customer>, fruits: seq<Fruit>, req: OrderRequest, now: Value, newId: string)
    : (r: Result<Created>)
    ensures CustomerWithId(customers, Str(req.customerId)).None? ==> r == Err(CustomerNotFound)
    ensures CustomerWithId(customers, Str(req.customerId)).Some? && ResolveItems(fruits, req.items).Err? ==>
        r == Err(ResolveItems(fruits, req.items).failure)
    ensures r.Ok? <==> CustomerWithId(customers, Str(req.customerId)).Some? && ResolveItems(fruits, req.items).Ok?
    ensures r.Ok? ==> Lookup(r.value.order, "totalAmount") == Some(r.value.totalAmount)
  {
    if CustomerWithId(customers, Str(req.customerId)).None? then Err(CustomerNotFound)
    else
      match ResolveItems(fruits, req.items)
      case Err(f) => Err(f)
      case Ok(fs) =>
        var total := TotalValue(fs, req.items);
        OrderDocFields(newId, now, req.customerId, ApiItemDocs(fs, req.items), total, req.status);
        Ok(Created(OrderDoc(newId, now, req.customerId, ApiItemDocs(fs, req.items), total, req.status), total))
  }

  /**
    An accepted REST order keeps the request: the customer id and status
    verbatim, one stored item per requested item in request order carrying the
    parsed ObjectId and the quantity, and as total the sum of price times
    quantity (the integer 0 for no items).
   */
  lemma ApiCreatedOrder(customers: seq<Customer>, fruits: seq<Fruit>, req: OrderRequest, now: Value, newId: string)
    requires ApiCreate(customers, fruits, req, now, newId).Ok?
    ensures var c := ApiCreate(customers, fruits, req, now, newId).value;
      var fs := ResolveItems(fruits, req.items).value;
      && Lookup(c.order, "_id") == Some(Oid(newId))
      && Lookup(c.order, "orderDate") == Some(now)
      && Lookup(c.order, "customerId") == Some(Str(req.customerId))
      && Lookup(c.order, "status") == Some(Str(req.status))
      && c.totalAmount == (if req.items == [] then Int(0) else Float(ItemsTotal(fs, req.items)))
      && Lookup(c.order, "items").Some? && Lookup(c.order, "items").value.List?
      && var stored := Lookup(c.order, "items").value.items;
      && |stored| == |req.items|
      && forall i :: 0 <= i < |req.items| ==>
           && ParseObjectId(Str(req.items[i].fruitId)).Some?
           && stored[i] == ItemDoc(ParseObjectId(Str(req.items[i].fruitId)).value, req.items[i].quantityKg)
  {
    var fs := ResolveItems(fruits, req.items).value;
    var stored := ApiItemDocs(fs, req.items);
    var c := ApiCreate(customers, fruits, req, now, newId).value;
    assert c == Created(OrderDoc(newId, now, req.customerId, stored, TotalValue(fs, req.items), req.status),
                        TotalValue(fs, req.items));
    OrderDocFields(newId, now, req.customerId, stored, TotalValue(fs, req.items), req.status);
    forall i | 0 <= i < |req.items|
      ensures ParseObjectId(Str(req.items[i].fruitId)) == Some(fs[i].id)
      ensures stored[i] == ItemDoc(fs[i].id, req.items[i].quantityKg)
    {
      assert CheckItem(fruits, req.items[i]) == Ok(fs[i]);
    }
  }

  /** A REST order whose body leaves `status` out is stored as "Pending". */
  lemma DefaultStatusStored(customers: seq<Customer>, fruits: seq<Fruit>, customerId: string,
                            items: seq<ItemRequest>, now: Value, newId: string)
    requires CustomerWithId(customers, Str(customerId)).Some? && ResolveItems(fruits, items).Ok?
    ensures Lookup(ApiCreate(customers, fruits, ParseOrderRequest(customerId, items, None), now, newId).value.order,
                   "status") == Some(Str("Pending"))
  {
    ApiCreatedOrder(customers, fruits, ParseOrderRequest(customerId, items, None), now, newId);
  }

  // ---------------------------------------------------------------------
  // The web form creation

  /**
    `create_order` of the web form: the fruit is looked up first (its id must
    parse), then the customer by `customerId`; there is no stock check, and the
    order holds the one item.
   */
  function WebCreate(customers: seq<Customer>, fruits: seq<Fruit>, customerId: string, fruitId: string,
                     quantityKg: real, status: string, now: Value, newId: string): (r: Result<Entries>)
    ensures ParseObjectId(Str(fruitId)).None? ==> r == Err(InvalidId(fruitId))
    ensures ParseObjectId(Str(fruitId)).Some? && FruitWithId(fruits, Oid(ParseObjectId(Str(fruitId)).value)).None? ==>
        r == Err(FruitNotFound)
    ensures r.Ok? <==>
        && ParseObjectId(Str(fruitId)).Some?
        && FruitWithId(fruits, Oid(ParseObjectId(Str(fruitId)).value)).Some?
        && CustomerWithId(customers, Str(customerId)).Some?
  {
    var hex := ParseObjectId(Str(fruitId));
    if hex.None? then Err(InvalidId(fruitId))
    else
      var fruit := FruitWithId(fruits, Oid(hex.value));
      if fruit.None? then Err(FruitNotFound)
      else if CustomerWithId(customers, Str(customerId)).None? then Err(CustomerNotFound)
      else
        var f := fruit.value;
        Ok(OrderDoc(newId, now, customerId, [ItemDoc(f.id, quantityKg)], Float(LineTotal(f, quantityKg)), status))
  }

  /**
    An accepted web order has the customer id and status verbatim, exactly one
    item, and total price times quantity, whatever the fruit's stock.
   */
  lemma WebCreatedOrder(customers: seq<Customer>, fruits: seq<Fruit>, customerId: string, fruitId: string,
                        quantityKg: real, status: string, now: Value, newId: string)
    requires WebCreate(customers, fruits, customerId, fruitId, quantityKg, status, now, newId).Ok?
    ensures var doc := WebCreate(customers, fruits, customerId, fruitId, quantityKg, status, now, newId).value;
      var f := FruitWithId(fruits, Oid(ParseObjectId(Str(fruitId)).value)).value;
      && Lookup(doc, "customerId") == Some(Str(customerId))
      && Lookup(doc, "status") == Some(Str(status))
      && Lookup(doc, "items") == Some(List([ItemDoc(ParseObjectId(Str(fruitId)).value, quantityKg)]))
      && Lookup(doc, "totalAmount") == Some(Float(LineTotal(f, quantityKg)))
  {
    var h := ParseObjectId(Str(fruitId)).value;
    var f := FruitWithId(fruits, Oid(h)).value;
    assert f.id == h;
    assert ParseObjectId(Str(fruitId)) == Some(h);
    assert FruitWithId(fruits, Oid(h)) == Some(f);
    assert CustomerWithId(customers, Str(customerId)).Some?;
    var doc := OrderDoc(newId, now, customerId, [ItemDoc(f.id, quantityKg)], Float(LineTotal(f, quantityKg)), status);
    assert WebCreate(customers, fruits, customerId, fruitId, quantityKg, status, now, newId) == Ok(doc);
    OrderDocFields(newId, now, customerId, [ItemDoc(f.id, quantityKg)], Float(LineTotal(f, quantityKg)), status);
  }

  /**
    The two entry points check in opposite orders: with neither the customer
    nor the fruit on file, the REST call reports the customer and the web form
    the fruit.
   */
  lemma CheckOrdersDiffer(customers: seq<Customer>, fruits: seq<Fruit>, customerId: string, fruitId: string,
                          quantityKg: real, status: string, now: Value, newId: string)
    requires CustomerWithId(customers, Str(customerId)).None?
    requires ParseObjectId(Str(fruitId)).Some? && FruitWithId(fruits, Oid(ParseObjectId(Str(fruitId)).value)).None?
    ensures ApiCreate(customers, fruits, OrderRequest(customerId, [ItemRequest(fruitId, quantityKg)], status), now, newId)
         == Err(CustomerNotFound)
    ensures WebCreate(customers, fruits, customerId, fruitId, quantityKg, status, now, newId) == Err(FruitNotFound)
  {
  }

  /** Only the REST call checks stock: a quantity above the stock is accepted by the web form. */
  lemma OnlyApiChecksStock(customers: seq<Customer>, fruits: seq<Fruit>, customerId: string, fruitId: string,
                           quantityKg: real, status: string, now: Value, newId: string)
    requires CustomerWithId(customers, Str(customerId)).Some?
    requires ParseObjectId(Str(fruitId)).Some? && FruitWithId(fruits, Oid(ParseObjectId(Str(fruitId)).value)).Some?
    requires (FruitWithId(fruits, Oid(ParseObjectId(Str(fruitId)).value)).value.stockKg as real) < quantityKg
    ensures ApiCreate(customers, fruits, OrderRequest(customerId, [ItemRequest(fruitId, quantityKg)], status), now, newId).Err?
    ensures WebCreate(customers, fruits, customerId, fruitId, quantityKg, status, now, newId).Ok?
  {
    var items := [ItemRequest(fruitId, quantityKg)];
    FirstFailingItem(fruits, items, 0);
  }

  /** For one item within stock, both entry points store the same order. */
  lemma ApiAndWebAgree(customers: seq<Customer>, fruits: seq<Fruit>, customerId: string, fruitId: string,
                       quantityKg: real, status: string, now: Value, newId: string)
    requires CustomerWithId(customers, Str(customerId)).Some?
    requires ParseObjectId(Str(fruitId)).Some? && FruitWithId(fruits, Oid(ParseObjectId(Str(fruitId)).value)).Some?
    requires quantityKg <= FruitWithId(fruits, Oid(ParseObjectId(Str(fruitId)).value)).value.stockKg as real
    ensures var api := ApiCreate(customers, fruits, OrderRequest(customerId, [ItemRequest(fruitId, quantityKg)], status), now, newId);
      var web := WebCreate(customers, fruits, customerId, fruitId, quantityKg, status, now, newId);
      api.Ok? && web.Ok? && api.value.order == web.value
  {
    var items := [ItemRequest(fruitId, quantityKg)];
    var f := FruitWithId(fruits, Oid(ParseObjectId(Str(fruitId)).value)).value;
    assert CheckItem(fruits, items[0]) == Ok(f);
    assert items[1..] == [];
    assert ResolveItems(fruits, items[1..]) == Ok([]);
    assert ResolveItems(fruits, items) == Ok([f] + []);
    assert [f] + [] == [f];
    assert ItemsTotal([f], items) == 0.0 + LineTotal(f, quantityKg) by {
      assert [f][..0] == [] && items[..0] == [];
    }
    assert ApiItemDocs([f], items) == [ItemDoc(f.id, quantityKg)];
    var doc := OrderDoc(newId, now, customerId, [ItemDoc(f.id, quantityKg)], Float(LineTotal(f, quantityKg)), status);
    assert TotalValue([f], items) == Float(LineTotal(f, quantityKg));
    assert ApiCreate(customers, fruits, OrderRequest(customerId, items, status), now, newId).value.order == doc;
    var h := ParseObjectId(Str(fruitId)).value;
    assert ParseObjectId(Str(fruitId)) == Some(h);
    assert FruitWithId(fruits, Oid(h)) == Some(f);
    assert WebCreate(customers, fruits, customerId, fruitId, quantityKg, status, now, newId) == Ok(doc);
  }

  // ---------------------------------------------------------------------
  // Changing an order

  /**
    `edit_order` of the web form: `$set` the status and `updated_at` on the
    first order whose `_id` is the parsed id.
   */
  function EditOrder(orders: seq<Entries>, orderId: string, status: string, now: Value): (r: Result<seq<Entries>>)
    ensures ParseObjectId(Str(orderId)).None? ==> r == Err(InvalidId(orderId))
    ensures r == Err(OrderNotFound) <==>
        ParseObjectId(Str(orderId)).Some? && OrderIndex(orders, ParseObjectId(Str(orderId)).value).None?
    ensures r.Ok? ==> |r.value| == |orders|
  {
    match ParseObjectId(Str(orderId))
    case None => Err(InvalidId(orderId))
    case Some(h) =>
      match OrderIndex(orders, h)
      case None => Err(OrderNotFound)
      case Some(k) => Ok(orders[k := SetKey(SetKey(orders[k], "status", Str(status)), "updated_at", now)])
  }

  /**
    An edit touches one order, the first with the id: its status and
    `updated_at` take the new values and every other field and every other
    order stays as it was.
   */
  lemma EditChangesOnlyStatus(orders: seq<Entries>, orderId: string, status: string, now: Value)
    requires EditOrder(orders, orderId, status, now).Ok?
    ensures var k := OrderIndex(orders, ParseObjectId(Str(orderId)).value).value;
      var after := EditOrder(orders, orderId, status, now).value;
      && (forall j :: 0 <= j < |orders| && j != k ==> after[j] == orders[j])
      && Lookup(after[k], "status") == Some(Str(status))
      && Lookup(after[k], "updated_at") == Some(now)
      && (forall key :: key != "status" && key != "updated_at" ==> Lookup(after[k], key) == Lookup(orders[k], key))
  {
    var k := OrderIndex(orders, ParseObjectId(Str(orderId)).value).value;
    var once := SetKey(orders[k], "status", Str(status));
    SetKeyLookup(once, "updated_at", now, "status");
    SetKeyLookup(orders[k], "status", Str(status), "status");
    forall key | key != "status" && key != "updated_at"
      ensures Lookup(SetKey(once, "updated_at", now), key) == Lookup(orders[k], key)
    {
      SetKeyLookup(once, "updated_at", now, key);
      SetKeyLookup(orders[k], "status", Str(status), key);
    }
    SetKeyLookup(once, "updated_at", now, "updated_at");
  }

  /** `{"$set": update}`: each field of the update written in turn. */
  function ApplySet(doc: Entries, update: Entries): (r: Entries)
    ensures forall key :: !HasKey(update, key) ==> Lookup(r, key) == Lookup(doc, key)
    decreases |update|
  {
    if |update| == 0 then doc
    else
      var once := SetKey(doc, update[0].0, update[0].1);
      assert forall key :: !HasKey(update, key) ==> key != update[0].0 && !HasKey(update[1..], key) by {
        assert Keys(update) == [update[0].0] + Keys(update[1..]);
      }
      assert forall key :: key != update[0].0 ==> Lookup(once, key) == Lookup(doc, key) by {
        forall key | key != update[0].0 ensures Lookup(once, key) == Lookup(doc, key) {
          SetKeyLookup(doc, update[0].0, update[0].1, key);
        }
      }
      ApplySet(once, update[1..])
  }

  /**
    `update_order_api`: refused with "No update data provided" before the id is
    looked at; otherwise the update, stamped with `updated_at`, is written to
    the first order with the id.
   */
  function UpdateOrderApi(orders: seq<Entries>, orderId: string, u: OrderUpdate, now: Value): (r: Result<seq<Entries>>)
    ensures u.status.None? ==> r == Err(NoUpdateData)
    ensures u.status.Some? && ParseObjectId(Str(orderId)).None? ==> r == Err(InvalidId(orderId))
    ensures r.Ok? ==> |r.value| == |orders|
  {
    match OrderUpdateDoc(u, now)
    case Err(f) => Err(f)
    case Ok(update) =>
      match ParseObjectId(Str(orderId))
      case None => Err(InvalidId(orderId))
      case Some(h) =>
        match OrderIndex(orders, h)
        case None => Err(OrderNotFound)
        case Some(k) => Ok(orders[k := ApplySet(orders[k], update)])
  }

  /** A REST update that gives a status writes exactly what the web edit writes. */
  lemma UpdateMatchesEdit(orders: seq<Entries>, orderId: string, status: string, now: Value)
    ensures UpdateOrderApi(orders, orderId, OrderUpdate(Some(status)), now) == EditOrder(orders, orderId, status, now)
  {
    var u := OrderUpdate(Some(status));
    var fields := OrderFields(u);
    assert fields == [("status", Some(Str(status)))];
    assert NonNone(fields) == [("status", Str(status))];
    var built := BuildUpdate(fields, Some(now));
    assert built.Ok? && built.value == [("status", Str(status))] + [("updated_at", now)];
    assert OrderUpdateDoc(u, now) == built;
    var update := [("status", Str(status)), ("updated_at", now)];
    forall doc: Entries ensures ApplySet(doc, update) == SetKey(SetKey(doc, "status", Str(status)), "updated_at", now) {
      var once := SetKey(doc, "status", Str(status));
      var last: Entries := [("updated_at", now)];
      assert update[1..] == last && last[1..] == [];
      assert ApplySet(doc, update) == ApplySet(once, last);
      assert ApplySet(once, last) == ApplySet(SetKey(once, "updated_at", now), []);
    }
  }
}
