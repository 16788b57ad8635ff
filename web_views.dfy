/**
  The order pages of the web interface: the order list, which resolves each
  order's customer through a chain of lookups and fills placeholders for
  missing data, and the edit form, which shows one order's items the same way.
 */
module WebViews {
  import opened Wrappers
  import opened Values
  import opened Records
  import opened Serializer

  /**
    `order.get("orderDate").strftime('%Y-%m-%d') if order.get("orderDate") else 'N/A'`;
    `None` when a present value is not a datetime (the call raises).
   */
  function OrderDateText(order: Entries): Option<string> {
    var d := Field(order, "orderDate");
    if !Truthy(d) then Some("N/A")
    else if d.DateTime? then Some(DateText(d.year, d.month, d.day))
    else None
  }

  // ---------------------------------------------------------------------
  // The customer of an order

  /**
    The four lookups of the order list, by number: the stored reference as it
    is, the record whose `_id` is `ObjectId(ref)`, the `customerId` equal to
    `int(ref)`, and the `customerId` equal to `str(ref)`. A lookup whose
    conversion raises matches nothing.
   */
  predicate MatchesAtStep(c: Customer, ref: Value, step: nat) {
    if step == 0 then c.customerId == ref
    else if step == 1 then ParseObjectId(ref).Some? && c.id == ParseObjectId(ref).value
    else if step == 2 then PyInt(ref).Some? && c.customerId == Int(PyInt(ref).value)
    else c.customerId == Str(Text(ref))
  }

  /** The fallback chain as the order list runs it: each lookup only when the ones before found nothing. */
  function ResolveCustomer(customers: seq<Customer>, ref: Value): (r: Option<Customer>)
    ensures r.Some? ==> r.value in customers
  {
    var byRef := CustomerWithId(customers, ref);
    if byRef.Some? then byRef
    else
      var byObjectId := if ParseObjectId(ref).Some? then CustomerWithObjectId(customers, ParseObjectId(ref).value) else None;
      if byObjectId.Some? then byObjectId
      else
        var byInt := if PyInt(ref).Some? then CustomerWithId(customers, Int(PyInt(ref).value)) else None;
        if byInt.Some? then byInt
        else CustomerWithId(customers, Str(Text(ref)))
  }

  /** The first customer that matches at `step`. */
  function HitAtStep(customers: seq<Customer>, ref: Value, step: nat): Option<Customer> {
    FindFirst(customers, (c: Customer) => MatchesAtStep(c, ref, step))
  }

  /** Each lookup of the chain finds the first customer matching at its step. */
  lemma LookupIsStep(customers: seq<Customer>, ref: Value)
    ensures CustomerWithId(customers, ref) == HitAtStep(customers, ref, 0)
    ensures ParseObjectId(ref).Some? ==>
      CustomerWithObjectId(customers, ParseObjectId(ref).value) == HitAtStep(customers, ref, 1)
    ensures ParseObjectId(ref).None? ==> HitAtStep(customers, ref, 1).None?
    ensures PyInt(ref).Some? ==> CustomerWithId(customers, Int(PyInt(ref).value)) == HitAtStep(customers, ref, 2)
    ensures PyInt(ref).None? ==> HitAtStep(customers, ref, 2).None?
    ensures CustomerWithId(customers, Str(Text(ref))) == HitAtStep(customers, ref, 3)
  {
    SameFirst(customers, (c: Customer) => c.customerId == ref, (c: Customer) => MatchesAtStep(c, ref, 0));
    if ParseObjectId(ref).Some? {
      var h := ParseObjectId(ref).value;
      SameFirst(customers, (c: Customer) => c.id == h, (c: Customer) => MatchesAtStep(c, ref, 1));
    }
    if PyInt(ref).Some? {
      var n := PyInt(ref).value;
      SameFirst(customers, (c: Customer) => c.customerId == Int(n), (c: Customer) => MatchesAtStep(c, ref, 2));
    }
    SameFirst(customers, (c: Customer) => c.customerId == Str(Text(ref)), (c: Customer) => MatchesAtStep(c, ref, 3));
  }

  lemma {:induction false} SameFirst<T>(s: seq<T>, p: T -> bool, q: T -> bool)
    requires forall x :: p(x) == q(x)
    ensures FindFirst(s, p) == FindFirst(s, q)
  {
    SameFirstIndex(s, p, q);
  }

  lemma {:induction false} SameFirstIndex<T>(s: seq<T>, p: T -> bool, q: T -> bool)
    requires forall x :: p(x) == q(x)
    ensures FirstIndex(s, p) == FirstIndex(s, q)
  {
    if |s| > 0 {
      SameFirstIndex(s[1..], p, q);
    }
  }

  /** The step whose lookup supplies the chain's answer; every earlier lookup found nothing. */
  lemma DecidingStep(customers: seq<Customer>, ref: Value) returns (step: nat)
    ensures step < 4
    ensures ResolveCustomer(customers, ref) == HitAtStep(customers, ref, step)
    ensures forall earlier :: 0 <= earlier < step ==> HitAtStep(customers, ref, earlier).None?
    ensures ResolveCustomer(customers, ref).None? ==> step == 3
  {
    LookupIsStep(customers, ref);
    if HitAtStep(customers, ref, 0).Some? {
      step := 0;
    } else if HitAtStep(customers, ref, 1).Some? {
      step := 1;
    } else if HitAtStep(customers, ref, 2).Some? {
      step := 2;
    } else {
      step := 3;
    }
  }

  /** A step finds nothing exactly when no customer matches at it. */
  lemma HitAtStepNone(customers: seq<Customer>, ref: Value, step: nat)
    ensures HitAtStep(customers, ref, step).None? <==>
      forall i :: 0 <= i < |customers| ==> !MatchesAtStep(customers[i], ref, step)
  {
  }

  /**
    The chain finds a customer exactly when some customer matches at some
    step, and then it is the first customer matching at the first step at
    which any customer matches.
   */
  lemma ResolveCustomerMeaning(customers: seq<Customer>, ref: Value)
    ensures ResolveCustomer(customers, ref).Some? <==>
      exists step, i :: 0 <= step < 4 && 0 <= i < |customers| && MatchesAtStep(customers[i], ref, step)
    ensures ResolveCustomer(customers, ref).Some? ==>
      exists step :: 0 <= step < 4 && ResolveCustomer(customers, ref) == HitAtStep(customers, ref, step)
        && forall earlier, i :: 0 <= earlier < step && 0 <= i < |customers| ==> !MatchesAtStep(customers[i], ref, earlier)
  {
    var step := DecidingStep(customers, ref);
    forall earlier, i | 0 <= earlier < step && 0 <= i < |customers|
      ensures !MatchesAtStep(customers[i], ref, earlier)
    {
      HitAtStepNone(customers, ref, earlier);
    }
    HitAtStepNone(customers, ref, step);
    if ResolveCustomer(customers, ref).None? {
      forall s, i | 0 <= s < 4 && 0 <= i < |customers| ensures !MatchesAtStep(customers[i], ref, s) {
        HitAtStepNone(customers, ref, s);
      }
    } else {
      var i :| 0 <= i < |customers| && MatchesAtStep(customers[i], ref, step);
    }
  }

  /** For a text reference the fourth lookup repeats the first: it can find nothing the first missed. */
  lemma TextRefFourthStepRepeatsFirst(c: Customer, s: string)
    ensures MatchesAtStep(c, Str(s), 3) <==> MatchesAtStep(c, Str(s), 0)
  {
  }

  /** A reference held as text finds a customer whose `customerId` is stored as that integer. */
  lemma IntTextFindsIntCustomer(customers: seq<Customer>, n: int)
    requires exists i :: 0 <= i < |customers| && customers[i].customerId == Int(n)
    ensures ResolveCustomer(customers, Str(IntText(n))).Some?
  {
    IntTextParses(n);
    var i :| 0 <= i < |customers| && customers[i].customerId == Int(n);
    assert MatchesAtStep(customers[i], Str(IntText(n)), 2);
    ResolveCustomerMeaning(customers, Str(IntText(n)));
  }

  /** A reference held as an integer finds a customer whose `customerId` is its decimal text. */
  lemma IntFindsTextCustomer(customers: seq<Customer>, n: int)
    requires exists i :: 0 <= i < |customers| && customers[i].customerId == Str(IntText(n))
    ensures ResolveCustomer(customers, Int(n)).Some?
  {
    var i :| 0 <= i < |customers| && customers[i].customerId == Str(IntText(n));
    assert MatchesAtStep(customers[i], Int(n), 3);
    ResolveCustomerMeaning(customers, Int(n));
  }

  /** A reference holding a customer's `_id` text (canonical form) finds a customer. */
  lemma ObjectIdTextFindsCustomer(customers: seq<Customer>, c: Customer)
    requires c in customers && IsCanonicalOid(c.id)
    ensures ResolveCustomer(customers, Str(c.id)).Some?
  {
    CanonicalOidParses(c.id);
    var i :| 0 <= i < |customers| && customers[i] == c;
    assert MatchesAtStep(customers[i], Str(c.id), 1);
    ResolveCustomerMeaning(customers, Str(c.id));
  }

  /** The `customerName` of a listed order; resolution never fails the order. */
  function CustomerName(customers: seq<Customer>, ref: Value): (name: string)
    ensures !Truthy(ref) ==> name == "No Customer ID"
    ensures Truthy(ref) && ResolveCustomer(customers, ref).None? ==> name == "Unknown (" + Text(ref) + ")"
    ensures Truthy(ref) && ResolveCustomer(customers, ref).Some? ==>
      exists i :: 0 <= i < |customers| && name == customers[i].name
  {
    if !Truthy(ref) then "No Customer ID"
    else
      match ResolveCustomer(customers, ref)
      case Some(c) => c.name
      case None => "Unknown (" + Text(ref) + ")"
  }

  // ---------------------------------------------------------------------
  // Items

  /** The dictionary elements of a stored list, in order; anything else is skipped. */
  function DictItems(xs: seq<Value>): (ds: seq<Entries>)
    ensures |ds| <= |xs|
    ensures forall i :: 0 <= i < |ds| ==> Dict(ds[i]) in xs
  {
    if |xs| == 0 then []
    else
      var init := DictItems(xs[..|xs| - 1]);
      assert forall v :: v in xs[..|xs| - 1] ==> v in xs;
      if xs[|xs| - 1].Dict? then init + [xs[|xs| - 1].entries] else init
  }

  /** Reading one more element of a list adds it when it is a dictionary. */
  lemma DictItemsStep(xs: seq<Value>, j: nat)
    requires j < |xs|
    ensures DictItems(xs[..j + 1]) == DictItems(xs[..j]) + if xs[j].Dict? then [xs[j].entries] else []
  {
    assert xs[..j + 1][..j] == xs[..j];
  }

  /** Keeping the dictionaries of a concatenation keeps those of each part, in order. */
  lemma {:induction false} DictItemsAppend(xs: seq<Value>, ys: seq<Value>)
    ensures DictItems(xs + ys) == DictItems(xs) + DictItems(ys)
    decreases |ys|
  {
    if |ys| == 0 {
      assert xs + ys == xs;
    } else {
      var n := |ys| - 1;
      assert (xs + ys)[..|xs + ys| - 1] == xs + ys[..n];
      DictItemsAppend(xs, ys[..n]);
    }
  }

  /** A list of dictionaries keeps every element. */
  lemma {:induction false} DictItemsOfDicts(xs: seq<Value>)
    requires forall i :: 0 <= i < |xs| ==> xs[i].Dict?
    ensures |DictItems(xs)| == |xs|
    ensures forall i :: 0 <= i < |xs| ==> DictItems(xs)[i] == xs[i].entries
  {
    if |xs| > 0 {
      DictItemsOfDicts(xs[..|xs| - 1]);
    }
  }

  /** One entry of `orderItems` in the order list. */
  datatype ListedItem = ListedItem(quantityKg: Value, fruitName: string, fruitId: string)

  /** The name shown for the fruit an item refers to. */
  function FruitName(fruits: seq<Fruit>, fruitRef: Value): string {
    if !Truthy(fruitRef) then "No Fruit ID"
    else
      match FruitWithId(fruits, fruitRef)
      case Some(f) => f.name
      case None => "Unknown Fruit"
  }

  function ListedItemOf(fruits: seq<Fruit>, item: Entries): (r: ListedItem)
    ensures !HasKey(item, "quantityKg") ==> r.quantityKg == Int(0)
    ensures HasKey(item, "quantityKg") ==> Some(r.quantityKg) == Lookup(item, "quantityKg")
    ensures !Truthy(Field(item, "fruitId")) ==> r.fruitName == "No Fruit ID" && r.fruitId == ""
    ensures Truthy(Field(item, "fruitId")) ==> r.fruitId == Text(Field(item, "fruitId"))
    ensures Truthy(Field(item, "fruitId")) && FruitWithId(fruits, Field(item, "fruitId")).None? ==>
      r.fruitName == "Unknown Fruit"
    ensures FruitWithId(fruits, Field(item, "fruitId")).Some? ==>
      r.fruitName == FruitWithId(fruits, Field(item, "fruitId")).value.name
  {
    var fruitRef := Field(item, "fruitId");
    ListedItem(Lookup(item, "quantityKg").GetOr(Int(0)), FruitName(fruits, fruitRef),
               if Truthy(fruitRef) then Text(fruitRef) else "")
  }

  /** `orderItems` of the order list: only a stored list is read, and only its dictionaries. */
  function ListedItems(fruits: seq<Fruit>, raw: Value): (r: seq<ListedItem>)
    ensures !raw.List? ==> r == []
    ensures raw.List? ==> |r| == |DictItems(raw.items)|
    ensures raw.List? ==> forall i :: 0 <= i < |r| ==> r[i] == ListedItemOf(fruits, DictItems(raw.items)[i])
  {
    if raw.List? then
      var ds := DictItems(raw.items);
      seq(|ds|, i requires 0 <= i < |ds| => ListedItemOf(fruits, ds[i]))
    else []
  }

  // ---------------------------------------------------------------------
  // The order list

  /** One row of the order list, keys in the order the page builds them. */
  datatype ListedOrder = ListedOrder(
    id: string, orderDate: string, customerId: Value, totalAmount: Value, status: Value,
    orderItems: seq<ListedItem>, customerName: string)

  /**
    One stored order as the list shows it; `None` when building the row
    raises (no `_id`, or an `orderDate` that is not a datetime).
   */
  function ListedOrderOf(customers: seq<Customer>, fruits: seq<Fruit>, order: Entries): (r: Option<ListedOrder>)
    ensures r.None? <==> !HasKey(order, "_id") || OrderDateText(order).None?
    ensures r.Some? ==> r.value.id == Text(Lookup(order, "_id").value)
    ensures r.Some? && !HasKey(order, "orderDate") ==> r.value.orderDate == "N/A"
    ensures r.Some? && !HasKey(order, "totalAmount") ==> r.value.totalAmount == Int(0)
    ensures r.Some? && !HasKey(order, "status") ==> r.value.status == Str("Unknown")
    ensures r.Some? ==> r.value.customerId == Field(order, "customerId")
    ensures r.Some? ==> r.value.customerName == CustomerName(customers, Field(order, "customerId"))
    ensures r.Some? ==> r.value.orderItems == ListedItems(fruits, Field(order, "items"))
  {
    if !HasKey(order, "_id") then None
    else
      match OrderDateText(order)
      case None => None
      case Some(date) =>
        Some(ListedOrder(
          Text(Lookup(order, "_id").value), date, Field(order, "customerId"),
          Lookup(order, "totalAmount").GetOr(Int(0)), Lookup(order, "status").GetOr(Str("Unknown")),
          ListedItems(fruits, Field(order, "items")), CustomerName(customers, Field(order, "customerId"))))
  }

  /** The rows of the whole collection; `None` as soon as one row raises. */
  function AllListed(customers: seq<Customer>, fruits: seq<Fruit>, orders: seq<Entries>): Option<seq<ListedOrder>> {
    AllSome(orders, (o: Entries) => ListedOrderOf(customers, fruits, o))
  }

  /** `list_orders`: one row per stored order in stored order, or no rows at all when any row raises. */
  function ListOrders(customers: seq<Customer>, fruits: seq<Fruit>, orders: seq<Entries>): (r: seq<ListedOrder>)
    ensures (forall i :: 0 <= i < |orders| ==> ListedOrderOf(customers, fruits, orders[i]).Some?) ==>
      && |r| == |orders|
      && forall i :: 0 <= i < |orders| ==> ListedOrderOf(customers, fruits, orders[i]) == Some(r[i])
    ensures (exists i :: 0 <= i < |orders| && ListedOrderOf(customers, fruits, orders[i]).None?) ==> r == []
  {
    AllSomeMeaning(orders, (o: Entries) => ListedOrderOf(customers, fruits, o));
    AllListed(customers, fruits, orders).GetOr([])
  }

  // ---------------------------------------------------------------------
  // The edit form

  /** One entry of the edit form's `orderItems`: no `fruitId`. */
  datatype FormItem = FormItem(quantityKg: Value, fruitName: string)

  datatype FormOrder = FormOrder(
    id: string, orderDate: string, customerId: Value, totalAmount: Value, status: Value, orderItems: seq<FormItem>)

  /** What the edit page shows: the order, and the first 100 customers and fruits to choose from. */
  datatype EditForm = EditForm(order: FormOrder, customers: Value, fruits: Value)

  /** `to_list(100)` of the web pages. */
  const PageLimit := 100

  function FormItemOf(fruits: seq<Fruit>, item: Entries): FormItem {
    FormItem(Lookup(item, "quantityKg").GetOr(Int(0)), FruitName(fruits, Field(item, "fruitId")))
  }

  /** `order.get("items", [])` is read only when it is a list. */
  function FormItems(fruits: seq<Fruit>, raw: Value): seq<FormItem> {
    if raw.List? then
      var ds := DictItems(raw.items);
      seq(|ds|, i requires 0 <= i < |ds| => FormItemOf(fruits, ds[i]))
    else []
  }

  /** The edit form lists the same items as the order list, without their `fruitId`. */
  lemma FormItemsAgreeWithListing(fruits: seq<Fruit>, raw: Value)
    ensures var listed := ListedItems(fruits, raw);
      FormItems(fruits, raw) == seq(|listed|, i requires 0 <= i < |listed| => FormItem(listed[i].quantityKg, listed[i].fruitName))
  {
  }

  /** The first `PageLimit` documents of a collection, serialized. */
  function FirstDocs(docs: seq<Entries>): (r: Value)
    ensures r.List? && |r.items| == if |docs| < PageLimit then |docs| else PageLimit
    ensures forall i :: 0 <= i < |r.items| ==> r.items[i] == Serialize(Dict(docs[i]))
  {
    var n := if |docs| < PageLimit then |docs| else PageLimit;
    Serialize(List(seq(n, i requires 0 <= i < n => Dict(docs[i]))))
  }

  function CustomerDocs(customers: seq<Customer>): seq<Entries> {
    seq(|customers|, i requires 0 <= i < |customers| => CustomerDoc(customers[i]))
  }

  function FruitDocs(fruits: seq<Fruit>): seq<Entries> {
    seq(|fruits|, i requires 0 <= i < |fruits| => FruitDoc(fruits[i]))
  }

  /**
    `edit_order_form`: the id must parse and name an order; a present
    `orderDate` that is not a datetime makes the page fail.
   */
  function EditOrderForm(customers: seq<Customer>, fruits: seq<Fruit>, orders: seq<Entries>, orderId: string)
    : (r: Result<EditForm>)
    ensures ParseObjectId(Str(orderId)).None? ==> r == Err(InvalidId(orderId))
    ensures r == Err(OrderNotFound) <==>
      ParseObjectId(Str(orderId)).Some? && OrderIndex(orders, ParseObjectId(Str(orderId)).value).None?
    ensures r.Ok? ==> r.value.customers == FirstDocs(CustomerDocs(customers))
    ensures r.Ok? ==> r.value.fruits == FirstDocs(FruitDocs(fruits))
  {
    match ParseObjectId(Str(orderId))
    case None => Err(InvalidId(orderId))
    case Some(h) =>
      match OrderIndex(orders, h)
      case None => Err(OrderNotFound)
      case Some(k) =>
        var order := orders[k];
        match OrderDateText(order)
        case None => Err(InternalError)
        case Some(date) =>
          Ok(EditForm(
            FormOrder(Text(Lookup(order, "_id").value), date, Field(order, "customerId"),
                      Lookup(order, "totalAmount").GetOr(Int(0)), Lookup(order, "status").GetOr(Str("Unknown")),
                      FormItems(fruits, Field(order, "items"))),
            FirstDocs(CustomerDocs(customers)), FirstDocs(FruitDocs(fruits))))
  }

  /**
    The edit form shows the order exactly as its row in the order list shows
    it, less the customer name and the items' `fruitId`; it fails where the
    row would raise.
   */
  lemma EditFormAgreesWithListing(customers: seq<Customer>, fruits: seq<Fruit>, orders: seq<Entries>, orderId: string)
    requires ParseObjectId(Str(orderId)).Some? && OrderIndex(orders, ParseObjectId(Str(orderId)).value).Some?
    ensures var k := OrderIndex(orders, ParseObjectId(Str(orderId)).value).value;
      var form := EditOrderForm(customers, fruits, orders, orderId);
      var row := ListedOrderOf(customers, fruits, orders[k]);
      && (form.Ok? <==> row.Some?)
      && (form.Ok? ==>
            && form.value.order.id == row.value.id
            && form.value.order.orderDate == row.value.orderDate
            && form.value.order.customerId == row.value.customerId
            && form.value.order.totalAmount == row.value.totalAmount
            && form.value.order.status == row.value.status
            && |form.value.order.orderItems| == |row.value.orderItems|
            && forall i :: 0 <= i < |row.value.orderItems| ==>
                 form.value.order.orderItems[i] == FormItem(row.value.orderItems[i].quantityKg, row.value.orderItems[i].fruitName))
  {
    var k := OrderIndex(orders, ParseObjectId(Str(orderId)).value).value;
    assert HasKey(orders[k], "_id");
    FormItemsAgreeWithListing(fruits, Field(orders[k], "items"));
  }
}
