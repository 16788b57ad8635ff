/**
  The entities of the store and the outcomes of the route handlers.
  Customers, fruits and suppliers are typed records; the two fields whose
  stored type varies between documents (a customer's `customerId`, a fruit's
  `supplierId`) keep the stored value as it is. Orders are kept as raw
  documents, because the order views tolerate any shape.
 */
module Records {
  import opened Wrappers
  import opened Values

  datatype Customer = Customer(
    id: string,          // `_id`, an ObjectId
    customerId: Value,   // the business identifier orders refer to, as stored
    name: string,
    phone: string,
    address: string,
    isMember: bool,
    updatedAt: Value)    // `updated_at`, the stamp every create and edit of a customer writes

  datatype Fruit = Fruit(
    id: string,
    barCode: string,
    name: string,
    category: string,
    pricePerKg: real,
    stockKg: int,
    country: string,
    supplierId: Value,
    isOrganic: bool)

  datatype Supplier = Supplier(
    id: string,
    name: string,
    phone: string,
    location: string,
    fruitsSupplied: seq<string>,
    active: bool)

  /** The stored document of a customer, fields in schema order. */
  function CustomerDoc(c: Customer): Entries {
    [("_id", Oid(c.id)), ("customerId", c.customerId), ("name", Str(c.name)), ("phone", Str(c.phone)),
     ("address", Str(c.address)), ("isMember", Bool(c.isMember)), ("updated_at", c.updatedAt)]
  }

  function FruitDoc(f: Fruit): Entries {
    [("_id", Oid(f.id)), ("barCode", Str(f.barCode)), ("name", Str(f.name)), ("category", Str(f.category)),
     ("pricePerKg", Float(f.pricePerKg)), ("stockKg", Int(f.stockKg)), ("country", Str(f.country)),
     ("supplierId", f.supplierId), ("isOrganic", Bool(f.isOrganic))]
  }

  function SupplierDoc(s: Supplier): Entries {
    [("_id", Oid(s.id)), ("name", Str(s.name)), ("phone", Str(s.phone)), ("location", Str(s.location)),
     ("fruitsSupplied", List(seq(|s.fruitsSupplied|, i requires 0 <= i < |s.fruitsSupplied| => Str(s.fruitsSupplied[i])))),
     ("active", Bool(s.active))]
  }

  /** Why a request was refused. */
  datatype Failure =
    | NotFound(detail: string)                              // 404
    | NoUpdateData                                          // 400
    | InsufficientStock(fruitName: string, availableKg: int) // 400
    | InvalidId(text: string)                               // `ObjectId(text)` raised: 500
    | InvalidQuery(parameter: string)                       // query parameter out of range: 422
    | InternalError                                         // any other exception: 500

  datatype Result<T> = Ok(value: T) | Err(failure: Failure)

  /** The HTTP status the handler answers with. */
  function Status(f: Failure): (code: int)
    ensures 400 <= code < 600
  {
    match f
    case NotFound(_) => 404
    case NoUpdateData => 400
    case InsufficientStock(_, _) => 400
    case InvalidId(_) => 500
    case InvalidQuery(_) => 422
    case InternalError => 500
  }

  /** The text of the error the handler reports. */
  function Detail(f: Failure): string {
    match f
    case NotFound(d) => d
    case NoUpdateData => "No update data provided"
    case InsufficientStock(n, k) => "Insufficient stock for " + n + ". Available: " + IntText(k) + "kg"
    case InvalidId(t) => "'" + t + "' is not a valid ObjectId, it must be a 12-byte input or a 24-character hex string"
    case InvalidQuery(p) => "invalid query parameter " + p
    case InternalError => "internal error"
  }

  const CustomerNotFound := NotFound("Customer not found")
  const FruitNotFound := NotFound("Fruit not found")
  const OrderNotFound := NotFound("Order not found")

  function FruitWithIdNotFound(fruitId: string): Failure {
    NotFound("Fruit with ID " + fruitId + " not found")
  }

  // ---------------------------------------------------------------------
  // `find_one` on the collections: the first record that matches.

  /** `customers.find_one({"customerId": v})`: the business identifier must equal `v` as stored. */
  function CustomerWithId(customers: seq<Customer>, v: Value): (r: Option<Customer>)
    ensures r.Some? ==> r.value in customers && r.value.customerId == v
    ensures r.None? <==> forall i :: 0 <= i < |customers| ==> customers[i].customerId != v
  {
    FindFirst(customers, (c: Customer) => c.customerId == v)
  }

  /** `customers.find_one({"_id": ObjectId(...)})` once the id has been parsed to `hex`. */
  function CustomerWithObjectId(customers: seq<Customer>, hex: string): (r: Option<Customer>)
    ensures r.Some? ==> r.value in customers && r.value.id == hex
    ensures r.None? <==> forall i :: 0 <= i < |customers| ==> customers[i].id != hex
  {
    FindFirst(customers, (c: Customer) => c.id == hex)
  }

  /** `fruits.find_one({"_id": v})`: only an ObjectId equal to the fruit's `_id` matches. */
  function FruitWithId(fruits: seq<Fruit>, v: Value): (r: Option<Fruit>)
    ensures r.Some? ==> r.value in fruits && Oid(r.value.id) == v
    ensures r.None? <==> forall i :: 0 <= i < |fruits| ==> Oid(fruits[i].id) != v
  {
    FindFirst(fruits, (f: Fruit) => Oid(f.id) == v)
  }

  /** `suppliers.find_one({"_id": v})`. */
  function SupplierWithId(suppliers: seq<Supplier>, v: Value): (r: Option<Supplier>)
    ensures r.Some? ==> r.value in suppliers && Oid(r.value.id) == v
    ensures r.None? <==> forall i :: 0 <= i < |suppliers| ==> Oid(suppliers[i].id) != v
  {
    FindFirst(suppliers, (s: Supplier) => Oid(s.id) == v)
  }

  /** The position of the first order document whose `_id` is the ObjectId `hex`. */
  function OrderIndex(orders: seq<Entries>, hex: string): (r: Option<nat>)
    ensures r.Some? ==> r.value < |orders| && Lookup(orders[r.value], "_id") == Some(Oid(hex))
    ensures r.Some? ==> forall j :: 0 <= j < r.value ==> Lookup(orders[j], "_id") != Some(Oid(hex))
    ensures r.None? <==> forall j :: 0 <= j < |orders| ==> Lookup(orders[j], "_id") != Some(Oid(hex))
  {
    FirstIndex(orders, (o: Entries) => Lookup(o, "_id") == Some(Oid(hex)))
  }
}
