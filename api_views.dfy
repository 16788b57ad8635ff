/**
  The order views of the REST interface (`get_orders`, `get_order`). Each
  order is serialized, named after the customer whose `customerId` is the
  stored reference, and has its items serialized with the name and price of
  the fruit they refer to. Any exception while building a view makes the
  handler answer 500, modelled as `None` here and `InternalError` outside.
 */
module ApiViews {
  import opened Wrappers
  import opened Values
  import opened Records
  import opened Queries
  import opened Serializer

  /** `d[k] = x` on a serialized value, which raises unless the value is a dictionary. */
  function SetOn(v: Value, k: string, x: Value): (r: Option<Value>)
    ensures r.Some? <==> v.Dict?
    ensures r.Some? ==> r.value.Dict? && Lookup(r.value.entries, k) == Some(x)
    ensures r.Some? ==> forall k' :: k' != k ==> Lookup(r.value.entries, k') == Lookup(v.entries, k')
  {
    if v.Dict? then
      assert forall k' :: Lookup(SetKey(v.entries, k, x), k') == if k' == k then Some(x) else Lookup(v.entries, k') by {
        forall k' ensures Lookup(SetKey(v.entries, k, x), k') == if k' == k then Some(x) else Lookup(v.entries, k') {
          SetKeyLookup(v.entries, k, x, k');
        }
      }
      Some(Dict(SetKey(v.entries, k, x)))
    else None
  }

  /**
    One stored item as the API shows it: serialized, plus `fruitName` and
    `fruitPrice` of the fruit whose `_id` is the item's `fruitId`, when there
    is one. Reading `fruitId` raises on anything but a dictionary.
   */
  function ItemView(fruits: seq<Fruit>, item: Value): (r: Option<Value>)
    ensures !item.Dict? ==> r.None?
    ensures item.Dict? && FruitWithId(fruits, Field(item.entries, "fruitId")).None? ==> r == Some(Serialize(item))
    ensures item.Dict? && FruitWithId(fruits, Field(item.entries, "fruitId")).Some? ==>
      var f := FruitWithId(fruits, Field(item.entries, "fruitId")).value;
      && (r.Some? <==> Serialize(item).Dict?)
      && (r.Some? ==>
            && r.value.Dict?
            && Lookup(r.value.entries, "fruitName") == Some(Str(f.name))
            && Lookup(r.value.entries, "fruitPrice") == Some(Float(f.pricePerKg))
            && forall k :: k != "fruitName" && k != "fruitPrice" ==>
                 Lookup(r.value.entries, k) == Lookup(Serialize(item).entries, k))
  {
    if !item.Dict? then None
    else
      var s := Serialize(item);
      var fruitRef := Field(item.entries, "fruitId");
      if !Truthy(fruitRef) then Some(s)
      else
        match FruitWithId(fruits, fruitRef)
        case None => Some(s)
        case Some(f) =>
          var named := SetOn(s, "fruitName", Str(f.name));
          if named.None? then None else SetOn(named.value, "fruitPrice", Float(f.pricePerKg))
  }

  /** `customer["name"] if customer else "Unknown"` for `find_one({"customerId": ref})`. */
  function ApiCustomerName(customers: seq<Customer>, ref: Value): (name: string)
    ensures CustomerWithId(customers, ref).None? ==> name == "Unknown"
    ensures CustomerWithId(customers, ref).Some? ==>
      exists i :: 0 <= i < |customers| && customers[i].customerId == ref && name == customers[i].name
  {
    match CustomerWithId(customers, ref)
    case Some(c) => c.name
    case None => "Unknown"
  }

  /** The views of a stored item list; `None` as soon as one item raises. */
  function ItemViews(fruits: seq<Fruit>, items: seq<Value>): Option<seq<Value>> {
    AllSome(items, (x: Value) => ItemView(fruits, x))
  }

  /**
    One stored order as the API shows it. `customerName` is added only for a
    truthy `customerId`; a truthy `items` must be a list, and replaces the
    serialized items with their views.
   */
  function OrderView(customers: seq<Customer>, fruits: seq<Fruit>, order: Entries): Option<Value> {
    var s := Serialize(Dict(order));
    var ref := Field(order, "customerId");
    var named := if Truthy(ref) then SetOn(s, "customerName", Str(ApiCustomerName(customers, ref))) else Some(s);
    var raw := Field(order, "items");
    if named.None? then None
    else if !Truthy(raw) then named
    else if !raw.List? then None
    else
      match ItemViews(fruits, raw.items)
      case None => None
      case Some(views) => SetOn(named.value, "items", List(views))
  }

  /**
    The view of a stored order, which always is a dictionary without `$oid`
    or `$date` keys: it is built exactly when every stored item can be,
    `customerName` appears for a truthy `customerId`, every stored item is
    kept in order, and every other key reads as in the serialized order.
   */
  lemma OrderViewMeaning(customers: seq<Customer>, fruits: seq<Fruit>, order: Entries)
    requires !HasKey(order, "$oid") && !HasKey(order, "$date")
    ensures var r := OrderView(customers, fruits, order);
      var ref := Field(order, "customerId");
      var raw := Field(order, "items");
      var s := Serialize(Dict(order));
      && (r.Some? <==> !Truthy(raw) || (raw.List? && forall i :: 0 <= i < |raw.items| ==> ItemView(fruits, raw.items[i]).Some?))
      && (r.Some? ==> r.value.Dict? && s.Dict?)
      && (r.Some? && Truthy(ref) ==>
            Lookup(r.value.entries, "customerName") == Some(Str(ApiCustomerName(customers, ref))))
      && (r.Some? && !Truthy(ref) ==> Lookup(r.value.entries, "customerName") == Lookup(s.entries, "customerName"))
      && (r.Some? && Truthy(raw) ==>
            && Lookup(r.value.entries, "items").Some?
            && Lookup(r.value.entries, "items").value.List?
            && |Lookup(r.value.entries, "items").value.items| == |raw.items|
            && forall i :: 0 <= i < |raw.items| ==>
                 ItemView(fruits, raw.items[i]) == Some(Lookup(r.value.entries, "items").value.items[i]))
      && (r.Some? && !Truthy(raw) ==> Lookup(r.value.entries, "items") == Lookup(s.entries, "items"))
      && (r.Some? ==> forall k :: k != "customerName" && k != "items" ==> Lookup(r.value.entries, k) == Lookup(s.entries, k))
  {
    SerializeDict(order);
    var raw := Field(order, "items");
    if Truthy(raw) && raw.List? {
      AllSomeMeaning(raw.items, (x: Value) => ItemView(fruits, x));
    }
  }

  /** The views of a page of orders; `None` as soon as one order raises. */
  function OrderViews(customers: seq<Customer>, fruits: seq<Fruit>, page: seq<Entries>): Option<seq<Value>> {
    AllSome(page, (o: Entries) => OrderView(customers, fruits, o))
  }

  /**
    `get_orders`: the page of matching orders, each as its view, with the
    pagination block; any view that raises fails the whole listing.
   */
  function GetOrders(customers: seq<Customer>, fruits: seq<Fruit>, orders: seq<Entries>,
                     skip: Option<int>, limit: Option<int>, status: Option<string>, customerId: Option<string>)
    : (r: Result<Listing<seq<Value>>>)
    ensures CheckPage(skip, limit).Err? ==> r == Err(CheckPage(skip, limit).failure)
    ensures CheckPage(skip, limit).Ok? ==>
      var p := CheckPage(skip, limit).value;
      var matched := Select(orders, OrderFilter(status, customerId));
      var page := Paginate(matched, p);
      && (r.Ok? <==> forall i :: 0 <= i < |page| ==> OrderView(customers, fruits, page[i]).Some?)
      && (r.Err? ==> r.failure == InternalError)
      && (r.Ok? ==>
            && r.value.skip == p.skip && r.value.limit == p.limit
            && r.value.total == |matched|
            && r.value.hasMore == HasMore(p, |matched|)
            && |r.value.data| == |page| <= p.limit
            && forall i :: 0 <= i < |page| ==> OrderView(customers, fruits, page[i]) == Some(r.value.data[i]))
  {
    match CheckPage(skip, limit)
    case Err(f) => Err(f)
    case Ok(p) =>
      var matched := Select(orders, OrderFilter(status, customerId));
      var page := Paginate(matched, p);
      AllSomeMeaning(page, (o: Entries) => OrderView(customers, fruits, o));
      match OrderViews(customers, fruits, page)
      case None => Err(InternalError)
      case Some(views) => Ok(Listing(views, p.skip, p.limit, |matched|, HasMore(p, |matched|)))
  }

  /** `get_order`: the id must parse and name an order; the answer is that order's view. */
  function GetOrder(customers: seq<Customer>, fruits: seq<Fruit>, orders: seq<Entries>, orderId: string)
    : (r: Result<Value>)
    ensures ParseObjectId(Str(orderId)).None? ==> r == Err(InvalidId(orderId))
    ensures r == Err(OrderNotFound) <==>
      ParseObjectId(Str(orderId)).Some? && OrderIndex(orders, ParseObjectId(Str(orderId)).value).None?
    ensures ParseObjectId(Str(orderId)).Some? && OrderIndex(orders, ParseObjectId(Str(orderId)).value).Some? ==>
      var order := orders[OrderIndex(orders, ParseObjectId(Str(orderId)).value).value];
      && (r.Ok? <==> OrderView(customers, fruits, order).Some?)
      && (r.Ok? ==> OrderView(customers, fruits, order) == Some(r.value))
      && (r.Err? ==> r.failure == InternalError)
  {
    match ParseObjectId(Str(orderId))
    case None => Err(InvalidId(orderId))
    case Some(h) =>
      match OrderIndex(orders, h)
      case None => Err(OrderNotFound)
      case Some(k) =>
        match OrderView(customers, fruits, orders[k])
        case None => Err(InternalError)
        case Some(v) => Ok(v)
  }
}
