/**
  The route handlers as they run against the store. The store holds the four
  collections; `find_one` takes the first matching record, `insert_one`
  appends and `update_one` writes the first match. Each handler is proved to
  do what the corresponding function of the model describes.
 */
module Handlers {
  import opened Wrappers
  import opened Values
  import opened Records
  import opened Updates
  import opened Orders
  import opened Queries
  import opened Serializer
  import WebViews
  import ApiViews
  import Catalog

  class Store {
    var customers: seq<Customer>
    var fruits: seq<Fruit>
    var suppliers: seq<Supplier>
    var orders: seq<Entries>

    constructor (customers: seq<Customer>, fruits: seq<Fruit>, suppliers: seq<Supplier>, orders: seq<Entries>)
      ensures this.customers == customers && this.fruits == fruits
      ensures this.suppliers == suppliers && this.orders == orders
    {
      this.customers := customers;
      this.fruits := fruits;
      this.suppliers := suppliers;
      this.orders := orders;
    }

    // -------------------------------------------------------------------
    // Writing orders

    /**
      `create_order_api`: checks the customer, then the items, and inserts the
      order only when every item passed. Fruit stock is left as it was.
     */
    method CreateOrderApi(req: OrderRequest, now: Value, newId: string) returns (r: Result<Value>)
      modifies this
      ensures customers == old(customers) && fruits == old(fruits) && suppliers == old(suppliers)
      ensures var spec := ApiCreate(old(customers), old(fruits), req, now, newId);
        && (spec.Ok? ==> orders == old(orders) + [spec.value.order] && r == Ok(spec.value.totalAmount))
        && (spec.Err? ==> orders == old(orders) && r == Err(spec.failure))
    {
      if CustomerWithId(customers, Str(req.customerId)).None? {
        return Err(CustomerNotFound);
      }
      var processed := ProcessItems(req.items);
      if processed.Err? {
        return Err(processed.failure);
      }
      var (items, total) := processed.value;
      ghost var fs := ResolveItems(fruits, req.items).value;
      assert ApiCreate(customers, fruits, req, now, newId)
          == Ok(Created(OrderDoc(newId, now, req.customerId, items, total, req.status), total));
      orders := orders + [OrderDoc(newId, now, req.customerId, items, total, req.status)];
      r := Ok(total);
    }

    /**
      The item loop of `create_order_api`: each item is checked in turn while
      the total and the stored items accumulate; the first failing item ends
      the request.
     */
    method ProcessItems(items: seq<ItemRequest>) returns (r: Result<(seq<Value>, Value)>)
      ensures ResolveItems(fruits, items).Err? ==> r == Err(ResolveItems(fruits, items).failure)
      ensures ResolveItems(fruits, items).Ok? ==>
        var fs := ResolveItems(fruits, items).value;
        r == Ok((ApiItemDocs(fs, items), TotalValue(fs, items)))
    {
      var sum: real := 0.0;
      var total: Value := Int(0);  // `total_amount = 0`: an integer until the first item adds to it
      var processed: seq<Value> := [];
      ghost var fs: seq<Fruit> := [];
      var i := 0;
      assert items[..0] == [];
      while i < |items|
        invariant Accumulated(fruits, items, i, fs, processed, sum)
        invariant total == if i == 0 then Int(0) else Float(sum)
      {
        var item := items[i];
        var checked := CheckItem(fruits, item);
        if checked.Err? {
          FirstFailingItem(fruits, items, i);
          return Err(checked.failure);
        }
        var f := checked.value;
        AccumulatedStep(fruits, items, i, fs, processed, sum, f);
        sum := sum + LineTotal(f, item.quantityKg);
        total := Float(sum);
        processed := processed + [ItemDoc(f.id, item.quantityKg)];
        fs := fs + [f];
        i := i + 1;
      }
      AccumulatedAll(fruits, items, fs, processed, sum);
      r := Ok((processed, total));
    }

    /** `create_order` of the web form: inserts the one-item order when the fruit and the customer exist. */
    method CreateOrderWeb(customerId: string, fruitId: string, quantityKg: real, status: string, now: Value, newId: string)
      returns (r: Result<Entries>)
      modifies this
      ensures customers == old(customers) && fruits == old(fruits) && suppliers == old(suppliers)
      ensures r == WebCreate(old(customers), old(fruits), customerId, fruitId, quantityKg, status, now, newId)
      ensures r.Ok? ==> orders == old(orders) + [r.value]
      ensures r.Err? ==> orders == old(orders)
    {
      var hex := ParseObjectId(Str(fruitId));
      if hex.None? {
        return Err(InvalidId(fruitId));
      }
      var fruit := FruitWithId(fruits, Oid(hex.value));
      if fruit.None? {
        return Err(FruitNotFound);
      }
      var total := LineTotal(fruit.value, quantityKg);
      if CustomerWithId(customers, Str(customerId)).None? {
        return Err(CustomerNotFound);
      }
      var doc := OrderDoc(newId, now, customerId, [ItemDoc(fruit.value.id, quantityKg)], Float(total), status);
      orders := orders + [doc];
      r := Ok(doc);
    }

    /** `edit_order`: sets the status and `updated_at` of the first order with the id. */
    method EditOrder(orderId: string, status: string, now: Value) returns (failure: Option<Failure>)
      modifies this
      ensures customers == old(customers) && fruits == old(fruits) && suppliers == old(suppliers)
      ensures var spec := Orders.EditOrder(old(orders), orderId, status, now);
        && (spec.Ok? ==> orders == spec.value && failure.None?)
        && (spec.Err? ==> orders == old(orders) && failure == Some(spec.failure))
    {
      var hex := ParseObjectId(Str(orderId));
      if hex.None? {
        return Some(InvalidId(orderId));
      }
      var k := OrderIndex(orders, hex.value);
      if k.None? {
        return Some(OrderNotFound);
      }
      var doc := SetKey(SetKey(orders[k.value], "status", Str(status)), "updated_at", now);
      orders := orders[k.value := doc];
      failure := None;
    }

    /** `update_order_api`: writes the given fields and `updated_at` to the first order with the id. */
    method UpdateOrder(orderId: string, u: OrderUpdate, now: Value) returns (failure: Option<Failure>)
      modifies this
      ensures customers == old(customers) && fruits == old(fruits) && suppliers == old(suppliers)
      ensures var spec := UpdateOrderApi(old(orders), orderId, u, now);
        && (spec.Ok? ==> orders == spec.value && failure.None?)
        && (spec.Err? ==> orders == old(orders) && failure == Some(spec.failure))
    {
      var update := OrderUpdateDoc(u, now);
      if update.Err? {
        return Some(update.failure);
      }
      var hex := ParseObjectId(Str(orderId));
      if hex.None? {
        return Some(InvalidId(orderId));
      }
      var k := OrderIndex(orders, hex.value);
      if k.None? {
        return Some(OrderNotFound);
      }
      orders := orders[k.value := ApplySet(orders[k.value], update.value)];
      failure := None;
    }

    // -------------------------------------------------------------------
    // The web order list

    /** `list_orders`: builds the rows one order at a time; an order that raises empties the page. */
    method ListOrders() returns (rows: seq<WebViews.ListedOrder>)
      ensures rows == WebViews.ListOrders(customers, fruits, orders)
    {
      var cs, fs := customers, fruits;
      var processed: seq<WebViews.ListedOrder> := [];
      var i := 0;
      assert orders[..0] == [];
      while i < |orders|
        invariant 0 <= i <= |orders|
        invariant AllSome(orders[..i], (o: Entries) => WebViews.ListedOrderOf(cs, fs, o)) == Some(processed)
      {
        var row := ListedRow(orders[i]);
        if row.None? {
          AllSomeFails(orders, i, (o: Entries) => WebViews.ListedOrderOf(cs, fs, o));
          return [];
        }
        AllSomeExtend(orders, i, (o: Entries) => WebViews.ListedOrderOf(cs, fs, o), processed, row.value);
        processed := processed + [row.value];
        i := i + 1;
      }
      assert orders[..i] == orders;
      rows := processed;
    }

    /** The body of the order loop of `list_orders` for one order; `None` where building the row raises. */
    method ListedRow(order: Entries) returns (row: Option<WebViews.ListedOrder>)
      ensures row == WebViews.ListedOrderOf(customers, fruits, order)
    {
      if !HasKey(order, "_id") {
        return None;
      }
      var date := WebViews.OrderDateText(order);
      if date.None? {
        return None;
      }
      var customerId := Field(order, "customerId");
      var customerName: string;
      if Truthy(customerId) {
        var customer := FindCustomer(customerId);
        customerName := if customer.Some? then customer.value.name else "Unknown (" + Text(customerId) + ")";
      } else {
        customerName := "No Customer ID";
      }
      var orderItems := ListedItems(Field(order, "items"));
      row := Some(WebViews.ListedOrder(
        Text(Lookup(order, "_id").value), date.value, customerId, Lookup(order, "totalAmount").GetOr(Int(0)),
        Lookup(order, "status").GetOr(Str("Unknown")), orderItems, customerName));
    }

    /** The fallback chain of `list_orders`: each lookup runs only while no customer has been found. */
    method FindCustomer(customerId: Value) returns (customer: Option<Customer>)
      ensures customer == WebViews.ResolveCustomer(customers, customerId)
    {
      customer := CustomerWithId(customers, customerId);
      if customer.None? {
        var hex := ParseObjectId(customerId);
        if hex.Some? {
          customer := CustomerWithObjectId(customers, hex.value);
        }
      }
      if customer.None? {
        var n := PyInt(customerId);
        if n.Some? {
          customer := CustomerWithId(customers, Int(n.value));
        }
      }
      if customer.None? {
        customer := CustomerWithId(customers, Str(Text(customerId)));
      }
    }

    /** The item loop of `list_orders`: one entry per dictionary of a stored list, in order. */
    method ListedItems(raw: Value) returns (orderItems: seq<WebViews.ListedItem>)
      ensures orderItems == WebViews.ListedItems(fruits, raw)
    {
      if !raw.List? {
        return [];
      }
      var xs := raw.items;
      orderItems := [];
      ghost var ds: seq<Entries> := [];
      var j := 0;
      assert xs[..0] == [];
      while j < |xs|
        invariant 0 <= j <= |xs|
        invariant ds == WebViews.DictItems(xs[..j])
        invariant |orderItems| == |ds|
        invariant forall m :: 0 <= m < |ds| ==> orderItems[m] == WebViews.ListedItemOf(fruits, ds[m])
      {
        WebViews.DictItemsStep(xs, j);
        if xs[j].Dict? {
          var row := ListedItem(xs[j].entries);
          orderItems := orderItems + [row];
          ds := ds + [xs[j].entries];
        }
        j := j + 1;
      }
      assert xs[..j] == xs;
    }

    /** The body of that loop for one dictionary item. */
    method ListedItem(item: Entries) returns (row: WebViews.ListedItem)
      ensures row == WebViews.ListedItemOf(fruits, item)
    {
      var fruitId := Field(item, "fruitId");
      var fruitName: string;
      var fruitText: string;
      if Truthy(fruitId) {
        var fruit := FruitWithId(fruits, fruitId);
        fruitName := if fruit.Some? then fruit.value.name else "Unknown Fruit";
        fruitText := Text(fruitId);
      } else {
        fruitName := "No Fruit ID";
        fruitText := "";
      }
      row := WebViews.ListedItem(Lookup(item, "quantityKg").GetOr(Int(0)), fruitName, fruitText);
    }

    /** `edit_order_form`: the order with its items, and the first customers and fruits to choose from. */
    method EditOrderForm(orderId: string) returns (r: Result<WebViews.EditForm>)
      ensures r == WebViews.EditOrderForm(customers, fruits, orders, orderId)
    {
      var hex := ParseObjectId(Str(orderId));
      if hex.None? {
        return Err(InvalidId(orderId));
      }
      var k := OrderIndex(orders, hex.value);
      if k.None? {
        return Err(OrderNotFound);
      }
      var order := orders[k.value];
      var date := WebViews.OrderDateText(order);
      if date.None? {
        return Err(InternalError);
      }
      var orderItems := FormItems(Field(order, "items"));
      var processedOrder := WebViews.FormOrder(
        Text(Lookup(order, "_id").value), date.value, Field(order, "customerId"),
        Lookup(order, "totalAmount").GetOr(Int(0)), Lookup(order, "status").GetOr(Str("Unknown")), orderItems);
      r := Ok(WebViews.EditForm(processedOrder, WebViews.FirstDocs(WebViews.CustomerDocs(customers)),
                                WebViews.FirstDocs(WebViews.FruitDocs(fruits))));
    }

    /** The item loop of `edit_order_form`: one entry per dictionary of a stored list, in order. */
    method FormItems(raw: Value) returns (orderItems: seq<WebViews.FormItem>)
      ensures orderItems == WebViews.FormItems(fruits, raw)
    {
      if !raw.List? {
        return [];
      }
      var xs := raw.items;
      orderItems := [];
      ghost var ds: seq<Entries> := [];
      var j := 0;
      assert xs[..0] == [];
      while j < |xs|
        invariant 0 <= j <= |xs|
        invariant ds == WebViews.DictItems(xs[..j])
        invariant |orderItems| == |ds|
        invariant forall m :: 0 <= m < |ds| ==> orderItems[m] == WebViews.FormItemOf(fruits, ds[m])
      {
        WebViews.DictItemsStep(xs, j);
        if xs[j].Dict? {
          var item := xs[j].entries;
          var fruitId := Field(item, "fruitId");
          var fruitName: string;
          if Truthy(fruitId) {
            var fruit := FruitWithId(fruits, fruitId);
            fruitName := if fruit.Some? then fruit.value.name else "Unknown Fruit";
          } else {
            fruitName := "No Fruit ID";
          }
          orderItems := orderItems + [WebViews.FormItem(Lookup(item, "quantityKg").GetOr(Int(0)), fruitName)];
          ds := ds + [item];
        }
        j := j + 1;
      }
      assert xs[..j] == xs;
    }

    // -------------------------------------------------------------------
    // The REST views

    /** `get_orders`: the page of matching orders, each built by the loop of the handler. */
    method GetOrders(skip: Option<int>, limit: Option<int>, status: Option<string>, customerId: Option<string>)
      returns (r: Result<Listing<seq<Value>>>)
      ensures r == ApiViews.GetOrders(customers, fruits, orders, skip, limit, status, customerId)
    {
      var checked := CheckPage(skip, limit);
      if checked.Err? {
        return Err(checked.failure);
      }
      var p := checked.value;
      var matched := Select(orders, OrderFilter(status, customerId));
      var ordersRaw := Paginate(matched, p);
      var processedOrders := OrderViews(ordersRaw);
      if processedOrders.None? {
        return Err(InternalError);
      }
      r := Ok(Listing(processedOrders.value, p.skip, p.limit, |matched|, HasMore(p, |matched|)));
    }

    /** The order loop of `get_orders`; `None` as soon as one order's view raises. */
    method OrderViews(page: seq<Entries>) returns (views: Option<seq<Value>>)
      ensures views == ApiViews.OrderViews(customers, fruits, page)
    {
      var cs, fs := customers, fruits;
      var processedOrders: seq<Value> := [];
      var i := 0;
      assert page[..0] == [];
      while i < |page|
        invariant 0 <= i <= |page|
        invariant AllSome(page[..i], (o: Entries) => ApiViews.OrderView(cs, fs, o)) == Some(processedOrders)
      {
        var view := OrderView(page[i]);
        if view.None? {
          AllSomeFails(page, i, (o: Entries) => ApiViews.OrderView(cs, fs, o));
          return None;
        }
        AllSomeExtend(page, i, (o: Entries) => ApiViews.OrderView(cs, fs, o), processedOrders, view.value);
        processedOrders := processedOrders + [view.value];
        i := i + 1;
      }
      assert page[..i] == page;
      views := Some(processedOrders);
    }

    /** `get_order`: the view of the first order with the id. */
    method GetOrder(orderId: string) returns (r: Result<Value>)
      ensures r == ApiViews.GetOrder(customers, fruits, orders, orderId)
    {
      var hex := ParseObjectId(Str(orderId));
      if hex.None? {
        return Err(InvalidId(orderId));
      }
      var k := OrderIndex(orders, hex.value);
      if k.None? {
        return Err(OrderNotFound);
      }
      var view := OrderView(orders[k.value]);
      r := if view.Some? then Ok(view.value) else Err(InternalError);
    }

    /**
      The body of the order loop of `get_orders` and of `get_order`: the
      serialized order is given its customer's name and its items' views.
     */
    method OrderView(order: Entries) returns (view: Option<Value>)
      ensures view == ApiViews.OrderView(customers, fruits, order)
    {
      var processed := SerializeDoc(Dict(order));
      var customerId := Field(order, "customerId");
      if Truthy(customerId) {
        if !processed.Dict? {
          return None;
        }
        var customer := CustomerWithId(customers, customerId);
        processed := Dict(SetKey(processed.entries, "customerName",
                                 Str(if customer.Some? then customer.value.name else "Unknown")));
      }
      var raw := Field(order, "items");
      if Truthy(raw) {
        if !raw.List? {
          return None;
        }
        var processedItems := ItemViews(raw.items);
        if processedItems.None? {
          return None;
        }
        if !processed.Dict? {
          return None;
        }
        processed := Dict(SetKey(processed.entries, "items", List(processedItems.value)));
      }
      view := Some(processed);
    }

    /** The item loop of `get_orders` and `get_order`; `None` as soon as one item raises. */
    method ItemViews(items: seq<Value>) returns (views: Option<seq<Value>>)
      ensures views == ApiViews.ItemViews(fruits, items)
    {
      var fs := fruits;
      var processedItems: seq<Value> := [];
      var j := 0;
      assert items[..0] == [];
      while j < |items|
        invariant 0 <= j <= |items|
        invariant ApiViews.ItemViews(fs, items[..j]) == Some(processedItems)
      {
        var item := ItemView(items[j]);
        if item.None? {
          AllSomeFails(items, j, (x: Value) => ApiViews.ItemView(fs, x));
          return None;
        }
        AllSomeExtend(items, j, (x: Value) => ApiViews.ItemView(fs, x), processedItems, item.value);
        processedItems := processedItems + [item.value];
        j := j + 1;
      }
      assert items[..j] == items;
      views := Some(processedItems);
    }

    /** The body of the item loop: the serialized item with its fruit's name and price. */
    method ItemView(item: Value) returns (view: Option<Value>)
      ensures view == ApiViews.ItemView(fruits, item)
    {
      var processed := SerializeDoc(item);
      if !item.Dict? {
        return None;
      }
      var fruitId := Field(item.entries, "fruitId");
      if Truthy(fruitId) {
        var fruit := FruitWithId(fruits, fruitId);
        if fruit.Some? {
          if !processed.Dict? {
            return None;
          }
          processed := Dict(SetKey(processed.entries, "fruitName", Str(fruit.value.name)));
          processed := Dict(SetKey(processed.entries, "fruitPrice", Float(fruit.value.pricePerKg)));
        }
      }
      view := Some(processed);
    }

    /** `get_fruits`: the loop adds each listed fruit's supplier name before the page is serialized. */
    method GetFruits(skip: Option<int>, limit: Option<int>, category: Option<string>, isOrganic: Option<bool>,
                     minStock: Option<int>) returns (r: Result<Listing<Value>>)
      ensures r == Catalog.GetFruits(fruits, suppliers, skip, limit, category, isOrganic, minStock)
    {
      var checked := CheckPage(skip, limit);
      if checked.Err? {
        return Err(checked.failure);
      }
      if minStock.Some? && minStock.value < 0 {
        return Err(InvalidQuery("min_stock"));
      }
      var p := checked.value;
      var matched := Catalog.MatchingFruits(fruits, category, isOrganic, minStock);
      var page := Paginate(matched, p);
      var docs := NamedFruits(page);
      var ss := suppliers;
      assert docs == seq(|page|, m requires 0 <= m < |page| => Dict(Catalog.WithSupplierName(ss, page[m])));
      var data := SerializeDoc(List(docs));
      r := Ok(Listing(data, p.skip, p.limit, |matched|, HasMore(p, |matched|)));
    }

    /** The supplier-name loop of `get_fruits` over one page of fruits. */
    method NamedFruits(page: seq<Fruit>) returns (docs: seq<Value>)
      ensures |docs| == |page|
      ensures forall m :: 0 <= m < |page| ==> docs[m] == Dict(Catalog.WithSupplierName(suppliers, page[m]))
    {
      docs := [];
      for j := 0 to |page|
        invariant |docs| == j
        invariant forall m :: 0 <= m < j ==> docs[m] == Dict(Catalog.WithSupplierName(suppliers, page[m]))
      {
        var fruit := NamedFruit(page[j]);
        docs := docs + [Dict(fruit)];
      }
    }

    /** One pass of that loop: `supplierName` is set only for a truthy `supplierId`. */
    method NamedFruit(f: Fruit) returns (fruit: Entries)
      ensures fruit == Catalog.WithSupplierName(suppliers, f)
    {
      fruit := FruitDoc(f);
      if Truthy(f.supplierId) {
        var supplier := SupplierWithId(suppliers, f.supplierId);
        fruit := SetKey(fruit, "supplierName", Str(if supplier.Some? then supplier.value.name else "Unknown"));
      }
    }
  }

  /** The state of the item loop after the first `i` items passed. */
  ghost predicate Accumulated(fruits: seq<Fruit>, items: seq<ItemRequest>, i: nat, fs: seq<Fruit>, processed: seq<Value>, sum: real) {
    && i <= |items| && |fs| == i && |processed| == i
    && (forall j :: 0 <= j < i ==> CheckItem(fruits, items[j]) == Ok(fs[j]))
    && (forall j :: 0 <= j < i ==> processed[j] == ItemDoc(fs[j].id, items[j].quantityKg))
    && sum == ItemsTotal(fs, items[..i])
  }

  /** One more item that passes extends the loop state by its fruit, its stored item and its line total. */
  lemma AccumulatedStep(fruits: seq<Fruit>, items: seq<ItemRequest>, i: nat, fs: seq<Fruit>, processed: seq<Value>,
                        sum: real, f: Fruit)
    requires Accumulated(fruits, items, i, fs, processed, sum)
    requires i < |items| && CheckItem(fruits, items[i]) == Ok(f)
    ensures Accumulated(fruits, items, i + 1, fs + [f], processed + [ItemDoc(f.id, items[i].quantityKg)],
                        sum + LineTotal(f, items[i].quantityKg))
  {
    TotalStep(items, i, fs, f);
    forall j | 0 <= j <= i ensures CheckItem(fruits, items[j]) == Ok((fs + [f])[j]) {
      if j < i {
        assert (fs + [f])[j] == fs[j];
      }
    }
    StoredStep(items, i, fs, processed, f);
  }

  lemma TotalStep(items: seq<ItemRequest>, i: nat, fs: seq<Fruit>, f: Fruit)
    requires i < |items| && |fs| == i
    ensures ItemsTotal(fs + [f], items[..i + 1]) == ItemsTotal(fs, items[..i]) + LineTotal(f, items[i].quantityKg)
  {
    assert items[..i + 1][..i] == items[..i];
    assert (fs + [f])[..i] == fs;
    assert items[..i + 1][i] == items[i];
  }

  lemma StoredStep(items: seq<ItemRequest>, i: nat, fs: seq<Fruit>, processed: seq<Value>, f: Fruit)
    requires i < |items| && |fs| == i && |processed| == i
    requires forall j :: 0 <= j < i ==> processed[j] == ItemDoc(fs[j].id, items[j].quantityKg)
    ensures forall j :: 0 <= j <= i ==>
      (processed + [ItemDoc(f.id, items[i].quantityKg)])[j] == ItemDoc((fs + [f])[j].id, items[j].quantityKg)
  {
    forall j | 0 <= j <= i
      ensures (processed + [ItemDoc(f.id, items[i].quantityKg)])[j] == ItemDoc((fs + [f])[j].id, items[j].quantityKg)
    {
      if j < i {
        assert (processed + [ItemDoc(f.id, items[i].quantityKg)])[j] == processed[j];
        assert (fs + [f])[j] == fs[j];
      }
    }
  }

  /** After every item passed, the loop holds the resolved fruits, the stored items and the total. */
  lemma AccumulatedAll(fruits: seq<Fruit>, items: seq<ItemRequest>, fs: seq<Fruit>, processed: seq<Value>, sum: real)
    requires Accumulated(fruits, items, |items|, fs, processed, sum)
    ensures ResolveItems(fruits, items) == Ok(fs)
    ensures processed == ApiItemDocs(fs, items)
    ensures sum == ItemsTotal(fs, items)
  {
    assert items[..|items|] == items;
    AllItemsPass(fruits, items, fs);
  }
}
